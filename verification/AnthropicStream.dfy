/**
 From chat chunks to the Messages event stream (smart-router/src/smart_router/anthropic.py:323-579).

 The log is the sequence of _emit calls; what a client receives is related to it at the end. An entry's block
 is opened by the call that creates the entry, so an entry here is always open.
 */
module AnthropicStream {
  import opened Collections
  import opened ChatStream

  /** A tool block is announced under the id and name that its first delta brought. */
  datatype Kind = TextBlock | ToolBlock(id: string, name: string)

  datatype Event =
    | MessageStart
    | BlockStart(index: nat, kind: Kind)
    | TextDelta(index: nat, text: string)
    | JsonDelta(index: nat, json: string)
    | BlockStop(index: nat)
    | MessageDelta(stopReason: string)
    | MessageStop
    | ErrorEvent(message: string)

  // ---------------------------------------------------------------- the grammar of a log

  /** Where a reader of the log stands: the kinds of the blocks started so far, and the ones stopped. */
  datatype Phase = Fresh | Open(kinds: seq<Kind>, stopped: set<nat>) | Closing | Complete | Broken | Malformed

  function Next(p: Phase, e: Event): Phase {
    match p
    case Fresh => if e.MessageStart? then Open([], {}) else if e.ErrorEvent? then Broken else Malformed
    case Open(kinds, stopped) =>
      (match e
       case BlockStart(i, kind) => if i == |kinds| && stopped == {} then Open(kinds + [kind], {}) else Malformed
       case TextDelta(i, _) => if i < |kinds| && kinds[i].TextBlock? && i !in stopped then p else Malformed
       case JsonDelta(i, _) => if i < |kinds| && kinds[i].ToolBlock? && i !in stopped then p else Malformed
       case BlockStop(i) => if i < |kinds| && i !in stopped then Open(kinds, stopped + {i}) else Malformed
       case MessageDelta(_) => if forall i | 0 <= i < |kinds| :: i in stopped then Closing else Malformed
       case ErrorEvent(_) => Broken
       case other => Malformed)
    case Closing => if e.MessageStop? then Complete else Malformed
    case other => Malformed
  }

  function Scan(log: seq<Event>): Phase {
    if log == [] then Fresh else Next(Scan(log[..|log| - 1]), log[|log| - 1])
  }

  function TextOf(log: seq<Event>): string {
    if log == [] then "" else TextOf(log[..|log| - 1]) + if log[|log| - 1].TextDelta? then log[|log| - 1].text else ""
  }

  function JsonOf(log: seq<Event>, i: nat): string {
    if log == [] then ""
    else JsonOf(log[..|log| - 1], i) + if log[|log| - 1].JsonDelta? && log[|log| - 1].index == i then log[|log| - 1].json else ""
  }

  lemma Appended(log: seq<Event>, e: Event)
    ensures Scan(log + [e]) == Next(Scan(log), e)
    ensures TextOf(log + [e]) == TextOf(log) + if e.TextDelta? then e.text else ""
  {
    assert (log + [e])[..|log|] == log;
  }

  lemma AppendedJson(log: seq<Event>, e: Event, i: nat)
    ensures JsonOf(log + [e], i) == JsonOf(log, i) + if e.JsonDelta? && e.index == i then e.json else ""
  {
    assert (log + [e])[..|log|] == log;
  }

  // ---------------------------------------------------------------- what a complete log is

  lemma {:induction false} WellFormedSoFar(log: seq<Event>, p: nat)
    requires p <= |log| && !Scan(log).Malformed?
    ensures !Scan(log[..p]).Malformed?
  {
    if p < |log| {
      WellFormedSoFar(log[..|log| - 1], p);
      assert log[..|log| - 1][..p] == log[..p];
    } else {
      assert log[..p] == log;
    }
  }

  lemma {:induction false} BlocksWereStarted(log: seq<Event>, i: nat)
    requires Scan(log).Open? && i < |Scan(log).kinds|
    ensures BlockStart(i, Scan(log).kinds[i]) in log
  {
    var rest, last := log[..|log| - 1], log[|log| - 1];
    assert log == rest + [last];
    if !(last.BlockStart? && last.index == i) {
      BlocksWereStarted(rest, i);
    }
  }

  /** Block i has been stopped, or the message is past its blocks. */
  predicate Past(p: Phase, i: nat) {
    p.Closing? || p.Complete? || (p.Open? && i in p.stopped)
  }

  lemma {:induction false} StopComesBetween(log: seq<Event>, p: nat, i: nat) returns (q: nat)
    requires p <= |log| && Scan(log[..p]).Open? && i < |Scan(log[..p]).kinds| && i !in Scan(log[..p]).stopped
    requires Past(Scan(log), i)
    ensures p <= q < |log| && log[q] == BlockStop(i)
  {
    assert log[..|log|] == log;
    var rest, last := log[..|log| - 1], log[|log| - 1];
    assert rest[..p] == log[..p];
    if Past(Scan(rest), i) {
      q := StopComesBetween(rest, p, i);
    } else {
      GrowsFrom(log[..p], log, |log| - 1, p, i);
      q := |log| - 1;
    }
  }

  /** Started blocks stay started while the message is open. */
  lemma {:induction false} GrowsFrom(start: seq<Event>, log: seq<Event>, n: nat, p: nat, i: nat)
    requires p <= n <= |log| && start == log[..p] && Scan(start).Open? && i < |Scan(start).kinds| && Scan(log[..n]).Open?
    ensures i < |Scan(log[..n]).kinds|
  {
    if p < n {
      assert log[..n][..n - 1] == log[..n - 1];
      NotFreshAfter(log, p, n - 1);
      GrowsFrom(start, log, n - 1, p, i);
    }
  }

  lemma {:induction false} NotFreshAfter(log: seq<Event>, p: nat, n: nat)
    requires p <= n <= |log| && !Scan(log[..p]).Fresh?
    ensures !Scan(log[..n]).Fresh?
  {
    if p < n {
      assert log[..n][..n - 1] == log[..n - 1];
      NotFreshAfter(log, p, n - 1);
    }
  }

  /** In a complete log every delta lies between the start and the stop of its own block, a start of the right kind. */
  lemma DeltaIsInsideItsBlock(log: seq<Event>, p: nat) returns (start: nat, stop: nat)
    requires Scan(log).Complete? && p < |log| && (log[p].TextDelta? || log[p].JsonDelta?)
    ensures start < p < stop < |log|
    ensures log[start].BlockStart? && log[start].index == log[p].index
    ensures log[start].kind.TextBlock? <==> log[p].TextDelta?
    ensures log[stop] == BlockStop(log[p].index)
  {
    WellFormedSoFar(log, p + 1);
    assert log[..p + 1][..p] == log[..p];
    var i := log[p].index;
    assert Scan(log[..p + 1]) == Next(Scan(log[..p]), log[p]) && Scan(log[..p]).Open?;
    BlocksWereStarted(log[..p], i);
    start :| 0 <= start < p && log[..p][start] == BlockStart(i, Scan(log[..p]).kinds[i]);
    stop := StopComesBetween(log, p + 1, i);
  }

  lemma BeginsOnce(log: seq<Event>, p: nat)
    requires Scan(log).Complete? && p < |log|
    ensures log[p] == MessageStart <==> p == 0
  {
    WellFormedSoFar(log, p + 1);
    assert log[..p + 1][..p] == log[..p];
    if p == 0 {
      assert log[..0] == [];
      NotBrokenSoFar(log, 1);
    } else {
      WellFormedSoFar(log, 1);
      assert log[..1][..0] == [];
      NotFreshAfter(log, 1, p);
    }
  }

  lemma EndsOnce(log: seq<Event>, p: nat)
    requires Scan(log).Complete? && p < |log|
    ensures log[p] == MessageStop <==> p == |log| - 1
  {
    if p < |log| - 1 && log[p] == MessageStop {
      WellFormedSoFar(log, p + 1);
      assert log[..p + 1][..p] == log[..p];
      DeadEnd(log, p + 1);
    }
  }

  /** A complete log begins with its only message_start and ends with its only message_stop. */
  lemma CompleteIsFramed(log: seq<Event>, p: nat)
    requires Scan(log).Complete? && p < |log|
    ensures log[p] == MessageStart <==> p == 0
    ensures log[p] == MessageStop <==> p == |log| - 1
  {
    BeginsOnce(log, p);
    EndsOnce(log, p);
  }

  lemma {:induction false} NotBrokenSoFar(log: seq<Event>, p: nat)
    requires p <= |log| && Scan(log).Complete?
    ensures !Scan(log[..p]).Broken?
  {
    assert log[..|log|] == log;
    if p < |log| {
      assert log == log[..p] + log[p..];
      if Scan(log[..p]).Broken? {
        BrokenStays(log[..p], log[p..]);
      }
    }
  }

  lemma {:induction false} DeadEnd(log: seq<Event>, p: nat)
    requires p < |log| && Scan(log[..p]).Complete?
    ensures Scan(log).Malformed?
  {
    var last := |log| - 1;
    if p < last {
      assert log[..last][..p] == log[..p];
      DeadEnd(log[..last], p);
    }
  }

  function TimesStarted(log: seq<Event>, i: nat): nat {
    if log == [] then 0
    else TimesStarted(log[..|log| - 1], i) + if log[|log| - 1].BlockStart? && log[|log| - 1].index == i then 1 else 0
  }

  function TimesStopped(log: seq<Event>, i: nat): nat {
    if log == [] then 0
    else TimesStopped(log[..|log| - 1], i) + if log[|log| - 1] == BlockStop(i) then 1 else 0
  }

  /** While the message is open, the blocks started and stopped are counted by the reader's state. */
  lemma {:induction false} OpenCounts(log: seq<Event>, i: nat)
    requires Scan(log).Open? || Scan(log).Fresh?
    ensures Scan(log).Fresh? ==> TimesStarted(log, i) == TimesStopped(log, i) == 0
    ensures Scan(log).Open? ==> TimesStarted(log, i) == if i < |Scan(log).kinds| then 1 else 0
    ensures Scan(log).Open? ==> TimesStopped(log, i) == if i in Scan(log).stopped then 1 else 0
    ensures Scan(log).Open? && i in Scan(log).stopped ==> i < |Scan(log).kinds|
  {
    if log != [] {
      OpenCounts(log[..|log| - 1], i);
    }
  }

  lemma {:induction false} ClosedCounts(log: seq<Event>) returns (n: nat)
    requires Scan(log).Closing? || Scan(log).Complete?
    ensures forall i: nat :: TimesStarted(log, i) == TimesStopped(log, i) == if i < n then 1 else 0
  {
    var rest := log[..|log| - 1];
    if Scan(rest).Open? {
      n := |Scan(rest).kinds|;
      forall i: nat ensures TimesStarted(log, i) == TimesStopped(log, i) == if i < n then 1 else 0 {
        OpenCounts(rest, i);
      }
    } else {
      n := ClosedCounts(rest);
    }
  }

  /** The blocks of a complete log are numbered from 0 without a gap; each is started exactly once and stopped
      exactly once, the start before the stop. */
  lemma BlocksStartAndStopOnce(log: seq<Event>) returns (n: nat)
    requires Scan(log).Complete?
    ensures forall i: nat :: TimesStarted(log, i) == TimesStopped(log, i) == if i < n then 1 else 0
    ensures forall p, q | 0 <= p < |log| && 0 <= q < |log| && log[p].BlockStart? && log[q] == BlockStop(log[p].index) :: p < q
  {
    n := ClosedCounts(log);
    forall p, q | 0 <= p < |log| && 0 <= q < |log| && log[p].BlockStart? && log[q] == BlockStop(log[p].index) ensures p < q {
      StopFollowsStart(log, p, q);
    }
  }

  lemma StartAt(log: seq<Event>, p: nat)
    requires Scan(log).Complete? && p < |log| && log[p].BlockStart?
    ensures Scan(log[..p]).Open? && log[p].index == |Scan(log[..p]).kinds|
  {
    WellFormedSoFar(log, p + 1);
    assert log[..p + 1][..p] == log[..p];
    assert Scan(log[..p + 1]) == Next(Scan(log[..p]), log[p]);
  }

  lemma StopAt(log: seq<Event>, q: nat)
    requires Scan(log).Complete? && q < |log| && log[q].BlockStop?
    ensures Scan(log[..q]).Open? && log[q].index < |Scan(log[..q]).kinds|
  {
    WellFormedSoFar(log, q + 1);
    assert log[..q + 1][..q] == log[..q];
    assert Scan(log[..q + 1]) == Next(Scan(log[..q]), log[q]);
  }

  lemma StopFollowsStart(log: seq<Event>, p: nat, q: nat)
    requires Scan(log).Complete? && p < |log| && q < |log| && log[p].BlockStart? && log[q] == BlockStop(log[p].index)
    ensures p < q
  {
    StartAt(log, p);
    StopAt(log, q);
    if q < p {
      GrowsFrom(log[..q], log, p, q, log[q].index);
    }
  }

  // ---------------------------------------------------------------- the translator on values

  /** `owners` lists the blocks in start order: None for the text, Some(k) for the call with index k. `kinds` is
      what their starts announced. */
  datatype View = View(started: bool, owners: seq<Option<int>>, kinds: seq<Kind>, text: string, calls: map<int, Call>,
                       log: seq<Event>)

  const BEGIN := View(false, [], [], "", map[], [])

  function Place(owners: seq<Option<int>>, owner: Option<int>): (i: nat)
    requires owner in owners
    ensures i < |owners| && owners[i] == owner
  {
    if owners[|owners| - 1] == owner then |owners| - 1
    else Place(owners[..|owners| - 1], owner)
  }

  function Started(v: View): View {
    if v.started then v else v.(started := true, log := v.log + [MessageStart])
  }

  function Opened(v: View, owner: Option<int>, kind: Kind): (w: View)
    ensures owner in w.owners
  {
    if owner in v.owners then v
    else v.(owners := v.owners + [owner], kinds := v.kinds + [kind], log := v.log + [BlockStart(|v.owners|, kind)])
  }

  function AddText(v: View, delta: string): View {
    var w := Opened(Started(v), None, TextBlock);
    w.(text := w.text + delta, log := w.log + [TextDelta(Place(w.owners, None), delta)])
  }

  function AddCall(v: View, d: CallDelta): View {
    var w := Opened(Started(v), Some(d.index), ToolBlock(d.id, d.name));
    w.(calls := MergeCall(w.calls, d),
       log := w.log + if d.arguments != "" then [JsonDelta(Place(w.owners, Some(d.index)), d.arguments)] else [])
  }

  function AddCalls(v: View, ds: seq<CallDelta>): View {
    if ds == [] then v else AddCall(AddCalls(v, ds[..|ds| - 1]), ds[|ds| - 1])
  }

  function WithDelta(v: View, content: string, calls: seq<CallDelta>): View {
    AddCalls(if content != "" then AddText(v, content) else v, calls)
  }

  function Consumed(v: View, chunk: Chunk): View {
    if chunk.Choice? then WithDelta(v, chunk.content, chunk.calls) else v
  }

  function ConsumedAll(v: View, chunks: seq<Chunk>): View {
    if chunks == [] then v else Consumed(ConsumedAll(v, chunks[..|chunks| - 1]), chunks[|chunks| - 1])
  }

  /** The tool blocks, in start order. */
  function ToolStops(owners: seq<Option<int>>): seq<Event> {
    if owners == [] then []
    else ToolStops(owners[..|owners| - 1]) + if owners[|owners| - 1].Some? then [BlockStop(|owners| - 1)] else []
  }

  function TextStop(owners: seq<Option<int>>): seq<Event> {
    if None in owners then [BlockStop(Place(owners, None))] else []
  }

  function Stops(owners: seq<Option<int>>): seq<Event> {
    TextStop(owners) + ToolStops(owners)
  }

  function Ending(v: View, stopReason: string): seq<Event> {
    Stops(v.owners) + [MessageDelta(stopReason), MessageStop]
  }

  // ---------------------------------------------------------------- every view fits its log

  ghost predicate MatchKinds(owners: seq<Option<int>>, kinds: seq<Kind>) {
    |owners| == |kinds| && forall i | 0 <= i < |kinds| :: kinds[i].TextBlock? <==> owners[i].None?
  }

  ghost predicate Owned(v: View) {
    && Distinct(v.owners)
    && (forall k :: k in v.calls <==> Some(k) in v.owners)
  }

  ghost predicate Logged(v: View) {
    && Scan(v.log) == (if v.started then Open(v.kinds, {}) else Fresh) && MatchKinds(v.owners, v.kinds)
    && (!v.started ==> v.owners == [])
    && TextOf(v.log) == v.text
  }

  ghost predicate Carried(v: View) {
    forall i: nat :: JsonOf(v.log, i) == if i < |v.owners| && v.owners[i].Some? then ArgumentsOf(v.calls, v.owners[i].value) else ""
  }

  ghost predicate Fits(v: View) {
    Owned(v) && Logged(v) && Carried(v)
  }

  /** An event that is no JSON piece, perhaps with a new block that has no call yet, carries nothing further. */
  lemma CarriesOn(v: View, e: Event, owners: seq<Option<int>>)
    requires Carried(v) && !e.JsonDelta?
    requires owners == v.owners
      || (|owners| == |v.owners| + 1 && owners[..|v.owners|] == v.owners
          && (owners[|v.owners|].Some? ==> owners[|v.owners|].value !in v.calls))
    ensures Carried(v.(owners := owners, log := v.log + [e]))
  {
    forall i: nat
      ensures JsonOf(v.log + [e], i) == if i < |owners| && owners[i].Some? then ArgumentsOf(v.calls, owners[i].value) else ""
    {
      AppendedJson(v.log, e, i);
      if i < |v.owners| {
        assert owners[i] == v.owners[i];
      }
    }
  }

  lemma StartedFits(v: View)
    requires Fits(v)
    ensures Fits(Started(v)) && Started(v).started
  {
    if !v.started {
      Appended(v.log, MessageStart);
      CarriesOn(v, MessageStart, v.owners);
    }
  }

  /** Every call has a block of its own, but the newest block may not have a call yet. */
  ghost predicate OwnedExcept(v: View, owner: Option<int>) {
    && Distinct(v.owners) && (forall k :: k in v.calls ==> Some(k) in v.owners)
    && (forall k | Some(k) in v.owners && Some(k) != owner :: k in v.calls)
    && owner in v.owners
  }

  lemma OpenedOwns(v: View, owner: Option<int>, kind: Kind)
    requires Owned(v)
    ensures OwnedExcept(Opened(v, owner, kind), owner)
  {
    if owner !in v.owners {
      var owners := v.owners + [owner];
      forall k | k in v.calls ensures Some(k) in owners {
        assert Some(k) in v.owners;
      }
      forall k | Some(k) in owners && Some(k) != owner ensures k in v.calls {
        assert Some(k) in v.owners;
      }
    }
  }

  lemma NoCallYet(v: View, owner: Option<int>)
    requires Owned(v) && owner !in v.owners
    ensures owner.Some? ==> owner.value !in v.calls
  {
    if owner.Some? {
      var k := owner.value;
      assert owner == Some(k);
      assert Some(k) !in v.owners;
      assert k !in v.calls;
    }
  }

  lemma StartLogs(v: View, owner: Option<int>, kind: Kind)
    requires Logged(v) && v.started && (kind.TextBlock? <==> owner.None?)
    ensures Logged(v.(owners := v.owners + [owner], kinds := v.kinds + [kind], log := v.log + [BlockStart(|v.owners|, kind)]))
  {
    Appended(v.log, BlockStart(|v.owners|, kind));
  }

  lemma OpenedLogs(v: View, owner: Option<int>, kind: Kind)
    requires Owned(v) && Logged(v) && Carried(v) && v.started && (kind.TextBlock? <==> owner.None?)
    ensures Logged(Opened(v, owner, kind)) && Carried(Opened(v, owner, kind))
  {
    if owner !in v.owners {
      StartLogs(v, owner, kind);
      NoCallYet(v, owner);
      assert (v.owners + [owner])[..|v.owners|] == v.owners;
      CarriesOn(v, BlockStart(|v.owners|, kind), v.owners + [owner]);
    }
  }

  lemma TextScans(log: seq<Event>, owners: seq<Option<int>>, kinds: seq<Kind>, e: Event)
    requires Scan(log) == Open(kinds, {}) && MatchKinds(owners, kinds)
    requires e.TextDelta? && e.index < |owners| && owners[e.index].None?
    ensures Scan(log + [e]) == Open(kinds, {})
  {
    Appended(log, e);
  }

  lemma TextLogs(w: View, delta: string)
    requires Logged(w) && Carried(w) && w.started && None in w.owners
    ensures var e := TextDelta(Place(w.owners, None), delta);
      var w' := w.(text := w.text + delta, log := w.log + [e]);
      Logged(w') && Carried(w')
  {
    var e := TextDelta(Place(w.owners, None), delta);
    TextScans(w.log, w.owners, w.kinds, e);
    Appended(w.log, e);
    CarriesOn(w, e, w.owners);
  }

  lemma AddTextFits(v: View, delta: string)
    requires Fits(v)
    ensures Fits(AddText(v, delta)) && AddText(v, delta).text == v.text + delta && AddText(v, delta).calls == v.calls
  {
    StartedFits(v);
    var s := Started(v);
    OpenedOwns(s, None, TextBlock);
    OpenedLogs(s, None, TextBlock);
    TextLogs(Opened(s, None, TextBlock), delta);
    OwnedWithText(Opened(s, None, TextBlock), AddText(v, delta));
  }

  lemma OwnedWithText(w: View, w': View)
    requires OwnedExcept(w, None) && w'.owners == w.owners && w'.calls == w.calls
    ensures Owned(w')
  {
  }

  lemma CallOwns(w: View, d: CallDelta)
    requires OwnedExcept(w, Some(d.index))
    ensures Owned(w.(calls := MergeCall(w.calls, d)))
  {
    forall k ensures k in MergeCall(w.calls, d) <==> Some(k) in w.owners {
      assert k in w.calls ==> Some(k) in w.owners;
    }
  }

  lemma MergedArguments(calls: map<int, Call>, d: CallDelta, k: int)
    ensures ArgumentsOf(MergeCall(calls, d), k) == ArgumentsOf(calls, k) + if k == d.index then d.arguments else ""
  {
  }

  lemma PlaceIsOnly(owners: seq<Option<int>>, owner: Option<int>, i: nat)
    requires owner in owners && i < |owners| && Distinct(owners)
    ensures i == Place(owners, owner) <==> owners[i] == owner
  {
  }

  lemma CallCarries(w: View, d: CallDelta, log: seq<Event>)
    requires OwnedExcept(w, Some(d.index)) && Carried(w)
    requires log == w.log + if d.arguments != "" then [JsonDelta(Place(w.owners, Some(d.index)), d.arguments)] else []
    ensures Carried(w.(calls := MergeCall(w.calls, d), log := log))
  {
    var calls := MergeCall(w.calls, d);
    forall i: nat
      ensures JsonOf(log, i) == if i < |w.owners| && w.owners[i].Some? then ArgumentsOf(calls, w.owners[i].value) else ""
    {
      OnePieceMore(w, d, log, i);
      if i < |w.owners| && w.owners[i].Some? {
        MergedArguments(w.calls, d, w.owners[i].value);
      }
    }
  }

  lemma OnePieceMore(w: View, d: CallDelta, log: seq<Event>, i: nat)
    requires OwnedExcept(w, Some(d.index))
    requires log == w.log + if d.arguments != "" then [JsonDelta(Place(w.owners, Some(d.index)), d.arguments)] else []
    ensures JsonOf(log, i) == JsonOf(w.log, i) + if i < |w.owners| && w.owners[i] == Some(d.index) then d.arguments else ""
  {
    if i < |w.owners| {
      PlaceIsOnly(w.owners, Some(d.index), i);
    }
    if d.arguments != "" {
      AppendedJson(w.log, JsonDelta(Place(w.owners, Some(d.index)), d.arguments), i);
    } else {
      assert log == w.log;
    }
  }

  lemma CallLogs(w: View, d: CallDelta, log: seq<Event>)
    requires OwnedExcept(w, Some(d.index)) && Logged(w) && w.started
    requires log == w.log + if d.arguments != "" then [JsonDelta(Place(w.owners, Some(d.index)), d.arguments)] else []
    ensures Logged(w.(calls := MergeCall(w.calls, d), log := log))
  {
    if d.arguments != "" {
      Appended(w.log, JsonDelta(Place(w.owners, Some(d.index)), d.arguments));
    } else {
      assert log == w.log;
    }
  }

  /** The call's own part, once its block is open. */
  lemma CallFits(w: View, d: CallDelta, after: View)
    requires OwnedExcept(w, Some(d.index)) && Logged(w) && Carried(w) && w.started
    requires after == w.(calls := MergeCall(w.calls, d),
      log := w.log + if d.arguments != "" then [JsonDelta(Place(w.owners, Some(d.index)), d.arguments)] else [])
    ensures Fits(after)
  {
    CallOwns(w, d);
    CallCarries(w, d, after.log);
    CallLogs(w, d, after.log);
  }

  lemma AddCallFits(v: View, d: CallDelta)
    requires Fits(v)
    ensures Fits(AddCall(v, d)) && AddCall(v, d).text == v.text && AddCall(v, d).calls == MergeCall(v.calls, d)
  {
    StartedFits(v);
    var s := Started(v);
    var kind := ToolBlock(d.id, d.name);
    OpenedOwns(s, Some(d.index), kind);
    OpenedLogs(s, Some(d.index), kind);
    CallFits(Opened(s, Some(d.index), kind), d, AddCall(v, d));
  }

  lemma {:induction false} AddCallsFits(v: View, ds: seq<CallDelta>)
    requires Fits(v)
    ensures Fits(AddCalls(v, ds)) && AddCalls(v, ds).text == v.text && AddCalls(v, ds).calls == MergeCalls(v.calls, ds)
  {
    if ds != [] {
      AddCallsFits(v, ds[..|ds| - 1]);
      AddCallFits(AddCalls(v, ds[..|ds| - 1]), ds[|ds| - 1]);
    }
  }

  /** After any chunks the log is a well-formed open stream, and it carries exactly what the chunks add up to. */
  lemma {:induction false} StreamFits(chunks: seq<Chunk>)
    ensures var v := ConsumedAll(Started(BEGIN), chunks);
      Fits(v) && v.started && v.text == Content(chunks) && v.calls == Calls(chunks)
  {
    if chunks == [] {
      StartedFits(BEGIN);
    } else {
      var rest, last := chunks[..|chunks| - 1], chunks[|chunks| - 1];
      StreamFits(rest);
      var v := ConsumedAll(Started(BEGIN), rest);
      if last.Choice? {
        if last.content != "" {
          AddTextFits(v, last.content);
        }
        AddCallsFits(if last.content != "" then AddText(v, last.content) else v, last.calls);
        StaysStarted(v, last);
      }
    }
  }

  lemma {:induction false} CallsStayStarted(v: View, ds: seq<CallDelta>)
    requires v.started
    ensures AddCalls(v, ds).started
  {
    if ds != [] {
      CallsStayStarted(v, ds[..|ds| - 1]);
    }
  }

  lemma StaysStarted(v: View, chunk: Chunk)
    requires v.started
    ensures Consumed(v, chunk).started
  {
    if chunk.Choice? {
      CallsStayStarted(if chunk.content != "" then AddText(v, chunk.content) else v, chunk.calls);
    }
  }

  // ---------------------------------------------------------------- endings

  ghost function ToolPlaces(owners: seq<Option<int>>, n: nat): set<nat>
    requires n <= |owners|
  {
    set i: nat | i < n && owners[i].Some?
  }

  lemma AppendStop(log: seq<Event>, kinds: seq<Kind>, stopped: set<nat>, i: nat)
    requires Scan(log) == Open(kinds, stopped) && i < |kinds| && i !in stopped
    ensures Scan(log + [BlockStop(i)]) == Open(kinds, stopped + {i})
  {
    Appended(log, BlockStop(i));
  }

  lemma OneMoreStop(log: seq<Event>, owners: seq<Option<int>>, n: nat)
    requires 0 < n <= |owners|
    ensures log + ToolStops(owners[..n])
      == log + ToolStops(owners[..n - 1]) + if owners[n - 1].Some? then [BlockStop(n - 1)] else []
  {
    assert owners[..n][..n - 1] == owners[..n - 1];
  }

  lemma OneMorePlace(owners: seq<Option<int>>, n: nat)
    requires 0 < n <= |owners|
    ensures ToolPlaces(owners, n) == ToolPlaces(owners, n - 1) + if owners[n - 1].Some? then {n - 1} else {}
  {
  }

  lemma {:induction false} ToolsStop(log: seq<Event>, owners: seq<Option<int>>, kinds: seq<Kind>, stopped: set<nat>, n: nat)
    requires n <= |owners| == |kinds| && Scan(log) == Open(kinds, stopped)
    requires forall i | i in stopped :: i < |owners| && owners[i].None?
    ensures Scan(log + ToolStops(owners[..n])) == Open(kinds, stopped + ToolPlaces(owners, n))
  {
    if n == 0 {
      assert log + ToolStops(owners[..0]) == log && stopped + ToolPlaces(owners, 0) == stopped;
    } else {
      ToolsStop(log, owners, kinds, stopped, n - 1);
      OneMoreStop(log, owners, n);
      OneMorePlace(owners, n);
      var before, places := log + ToolStops(owners[..n - 1]), stopped + ToolPlaces(owners, n - 1);
      if owners[n - 1].Some? {
        AppendStop(before, kinds, places, n - 1);
        assert places + {n - 1} == stopped + ToolPlaces(owners, n);
      } else {
        assert before + [] == before && places == stopped + ToolPlaces(owners, n);
      }
    }
  }

  lemma TextStops(log: seq<Event>, owners: seq<Option<int>>, kinds: seq<Kind>) returns (stopped: set<nat>)
    requires Distinct(owners) && |owners| == |kinds| && Scan(log) == Open(kinds, {})
    ensures Scan(log + TextStop(owners)) == Open(kinds, stopped)
    ensures forall i: nat :: i in stopped <==> i < |owners| && owners[i].None?
  {
    if None in owners {
      var at := Place(owners, None);
      stopped := {at};
      AppendStop(log, kinds, {}, at);
      forall i: nat | i < |owners| ensures i == at <==> owners[i].None? {
        PlaceIsOnly(owners, None, i);
      }
    } else {
      stopped := {};
      assert log + TextStop(owners) == log;
    }
  }

  /** Stopping the text block and then the tool blocks stops every block once. */
  lemma AllStop(log: seq<Event>, owners: seq<Option<int>>, kinds: seq<Kind>) returns (stopped: set<nat>)
    requires Distinct(owners) && |owners| == |kinds| && Scan(log) == Open(kinds, {})
    ensures Scan(log + Stops(owners)) == Open(kinds, stopped) && forall i | 0 <= i < |kinds| :: i in stopped
  {
    var text := TextStops(log, owners, kinds);
    ToolsStop(log + TextStop(owners), owners, kinds, text, |owners|);
    stopped := text + ToolPlaces(owners, |owners|);
    assert owners[..|owners|] == owners;
    assert log + Stops(owners) == log + TextStop(owners) + ToolStops(owners);
  }

  predicate Silent(es: seq<Event>) {
    forall e | e in es :: !e.TextDelta? && !e.JsonDelta?
  }

  lemma {:induction false} SilentAdds(log: seq<Event>, es: seq<Event>, i: nat)
    requires Silent(es)
    ensures TextOf(log + es) == TextOf(log) && JsonOf(log + es, i) == JsonOf(log, i)
  {
    if es == [] {
      assert log + es == log;
    } else {
      var rest, last := es[..|es| - 1], es[|es| - 1];
      SilentAdds(log, rest, i);
      assert log + es == log + rest + [last] && last in es;
      Appended(log + rest, last);
      AppendedJson(log + rest, last, i);
    }
  }

  lemma {:induction false} ToolStopsAreSilent(owners: seq<Option<int>>)
    ensures Silent(ToolStops(owners))
  {
    if owners != [] {
      ToolStopsAreSilent(owners[..|owners| - 1]);
    }
  }

  lemma Closes(log: seq<Event>, kinds: seq<Kind>, stopped: set<nat>, stopReason: string)
    requires Scan(log) == Open(kinds, stopped) && forall i | 0 <= i < |kinds| :: i in stopped
    ensures Scan(log + [MessageDelta(stopReason), MessageStop]) == Complete
  {
    Appended(log, MessageDelta(stopReason));
    Appended(log + [MessageDelta(stopReason)], MessageStop);
    assert log + [MessageDelta(stopReason), MessageStop] == log + [MessageDelta(stopReason)] + [MessageStop];
  }

  lemma EndingCompletes(v: View, stopReason: string)
    requires Owned(v) && Logged(v) && v.started
    ensures Scan(v.log + Ending(v, stopReason)) == Complete
  {
    var stopped := AllStop(v.log, v.owners, v.kinds);
    Closes(v.log + Stops(v.owners), v.kinds, stopped, stopReason);
    assert v.log + Ending(v, stopReason) == v.log + Stops(v.owners) + [MessageDelta(stopReason), MessageStop];
  }

  lemma EndingIsSilent(v: View, stopReason: string)
    ensures Silent(Ending(v, stopReason))
  {
    ToolStopsAreSilent(v.owners);
  }

  /** The log of any chunks ended by finish is a complete message, whose text is the chunks' text and whose tool
      blocks carry, call by call, the chunks' argument pieces. */
  lemma FinishedStreamIsComplete(chunks: seq<Chunk>, stopReason: string)
    ensures var v := ConsumedAll(Started(BEGIN), chunks);
      var log := v.log + Ending(v, stopReason);
      && Scan(log) == Complete && TextOf(log) == Content(chunks)
      && Distinct(v.owners) && (forall k :: k in Calls(chunks) <==> Some(k) in v.owners)
      && forall i: nat | i < |v.owners| && v.owners[i].Some? :: JsonOf(log, i) == Pieces(chunks, v.owners[i].value)
  {
    StreamFits(chunks);
    var v := ConsumedAll(Started(BEGIN), chunks);
    var ending := Ending(v, stopReason);
    EndingCompletes(v, stopReason);
    EndingIsSilent(v, stopReason);
    SilentAdds(v.log, ending, 0);
    forall i: nat | i < |v.owners| && v.owners[i].Some? ensures JsonOf(v.log + ending, i) == Pieces(chunks, v.owners[i].value) {
      SilentAdds(v.log, ending, i);
      CallsJoinPieces(chunks, v.owners[i].value);
    }
  }

  /** The log of any chunks ended by fail ends in an error and never completes, whatever follows. */
  lemma {:induction false} FailedStreamNeverCompletes(chunks: seq<Chunk>, message: string, more: seq<Event>)
    ensures var log := ConsumedAll(Started(BEGIN), chunks).log + [ErrorEvent(message)];
      Scan(log) == Broken && MessageStop !in log && !Scan(log + more).Complete?
  {
    StreamFits(chunks);
    var v := ConsumedAll(Started(BEGIN), chunks);
    var log := v.log + [ErrorEvent(message)];
    Appended(v.log, ErrorEvent(message));
    NoStopInside(v.log);
    if more == [] {
      assert log + more == log;
    } else {
      BrokenStays(log, more);
    }
  }

  lemma {:induction false} BrokenStays(log: seq<Event>, more: seq<Event>)
    requires Scan(log).Broken? && more != []
    ensures Scan(log + more).Malformed?
  {
    var rest, last := more[..|more| - 1], more[|more| - 1];
    assert log + more == log + rest + [last];
    Appended(log + rest, last);
    if rest == [] {
      assert log + rest == log;
    } else {
      BrokenStays(log, rest);
    }
  }

  lemma {:induction false} NoStopInside(log: seq<Event>)
    requires Scan(log).Open? || Scan(log).Fresh? || Scan(log).Closing?
    ensures MessageStop !in log
  {
    if log != [] {
      NoStopInside(log[..|log| - 1]);
      assert log == log[..|log| - 1] + [log[|log| - 1]];
    }
  }
}
