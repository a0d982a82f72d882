/**
 The translator in place, and the stream a client receives (smart-router/src/smart_router/anthropic.py:323-579).
 */
module AnthropicTranslator {
  import opened Collections
  import opened ChatStream
  import opened Text
  import opened AnthropicStream

  function StopReason(finish: string): string {
    if finish == "length" then "max_tokens"
    else if finish == "tool_calls" || finish == "function_call" then "tool_use"
    else "end_turn"
  }

  datatype Entry = Entry(index: nat, call: Call)

  /** The call indexes in start order. */
  function Tools(owners: seq<Option<int>>): seq<int> {
    if owners == [] then []
    else Tools(owners[..|owners| - 1]) + if owners[|owners| - 1].Some? then [owners[|owners| - 1].value] else []
  }

  /** The fields say which block belongs to whom. */
  ghost predicate Indexed(textBlock: Option<nat>, toolBlocks: map<int, Entry>, owners: seq<Option<int>>) {
    && Distinct(owners)
    && (if textBlock.Some? then None in owners && textBlock.value == Place(owners, None) else None !in owners)
    && (forall k {:trigger k in toolBlocks} :: k in toolBlocks <==> Some(k) in owners)
    && (forall k {:trigger toolBlocks[k]} | k in toolBlocks && Some(k) in owners :: toolBlocks[k].index == Place(owners, Some(k)))
  }

  ghost function CallsIn(toolBlocks: map<int, Entry>): map<int, Call> {
    map k | k in toolBlocks :: toolBlocks[k].call
  }

  lemma PlaceStays(owners: seq<Option<int>>, more: Option<int>, owner: Option<int>)
    requires Distinct(owners) && more !in owners && owner in owners + [more]
    ensures Place(owners + [more], owner) == if owner == more then |owners| else Place(owners, owner)
  {
    assert (owners + [more])[..|owners|] == owners;
  }

  lemma UniqueMore(owners: seq<Option<int>>, more: Option<int>)
    requires Distinct(owners) && more !in owners
    ensures Distinct(owners + [more])
  {
  }

  lemma IndexedMoreText(toolBlocks: map<int, Entry>, owners: seq<Option<int>>)
    requires Indexed(None, toolBlocks, owners)
    ensures Indexed(Some(|owners|), toolBlocks, owners + [None])
  {
    UniqueMore(owners, None);
    PlaceStays(owners, None, None);
    forall k ensures k in toolBlocks <==> Some(k) in owners + [None] {
      assert Some(k) in owners + [None] <==> Some(k) in owners;
    }
    forall k | k in toolBlocks ensures toolBlocks[k].index == Place(owners + [None], Some(k)) {
      PlaceStays(owners, None, Some(k));
    }
  }

  lemma IndexedMoreTool(textBlock: Option<nat>, toolBlocks: map<int, Entry>, owners: seq<Option<int>>, d: CallDelta, call: Call)
    requires Indexed(textBlock, toolBlocks, owners) && d.index !in toolBlocks
    ensures Indexed(textBlock, toolBlocks[d.index := Entry(|owners|, call)], owners + [Some(d.index)])
  {
    var more := Some(d.index);
    UniqueMore(owners, more);
    PlaceStays(owners, more, more);
    if textBlock.Some? {
      PlaceStays(owners, more, None);
    }
    var blocks := toolBlocks[d.index := Entry(|owners|, call)];
    forall k ensures k in blocks <==> Some(k) in owners + [more] {
      assert Some(k) in owners + [more] <==> Some(k) in owners || k == d.index;
    }
    forall k | k in blocks && Some(k) in owners + [more] ensures blocks[k].index == Place(owners + [more], Some(k)) {
      PlaceStays(owners, more, Some(k));
    }
  }

  lemma IndexedSame(textBlock: Option<nat>, toolBlocks: map<int, Entry>, owners: seq<Option<int>>, k: int, call: Call)
    requires Indexed(textBlock, toolBlocks, owners) && k in toolBlocks
    ensures Indexed(textBlock, toolBlocks[k := toolBlocks[k].(call := call)], owners)
  {
  }

  lemma EntryOf(textBlock: Option<nat>, toolBlocks: map<int, Entry>, owners: seq<Option<int>>, k: int)
    requires Indexed(textBlock, toolBlocks, owners) && Some(k) in owners
    ensures k in toolBlocks && toolBlocks[k].index == Place(owners, Some(k))
  {
    assert k in toolBlocks;
  }

  /** The stops of the first `n` tools. */
  function StopsOf(order: seq<int>, owners: seq<Option<int>>, n: nat): seq<Event>
    requires n <= |order| && forall j | 0 <= j < n :: Some(order[j]) in owners
  {
    if n == 0 then [] else StopsOf(order, owners, n - 1) + [BlockStop(Place(owners, Some(order[n - 1])))]
  }

  lemma {:induction false} ToolsAreOwners(owners: seq<Option<int>>, j: nat)
    requires j < |Tools(owners)|
    ensures Some(Tools(owners)[j]) in owners
  {
    var rest := owners[..|owners| - 1];
    assert owners == rest + [owners[|owners| - 1]];
    if j < |Tools(rest)| {
      ToolsAreOwners(rest, j);
    }
  }

  lemma {:induction false} StopsInBoth(order: seq<int>, owners: seq<Option<int>>, more: Option<int>, n: nat)
    requires Distinct(owners) && more !in owners && n <= |order| && forall j | 0 <= j < n :: Some(order[j]) in owners
    ensures forall j | 0 <= j < n :: Some(order[j]) in owners + [more]
    ensures StopsOf(order, owners + [more], n) == StopsOf(order, owners, n)
  {
    forall j | 0 <= j < n ensures Some(order[j]) in owners + [more] {
      assert Some(order[j]) in owners;
    }
    if n > 0 {
      StopsInBoth(order, owners, more, n - 1);
      PlaceStays(owners, more, Some(order[n - 1]));
    }
  }

  lemma {:induction false} StopsPrefix(order: seq<int>, more: seq<int>, owners: seq<Option<int>>, n: nat)
    requires n <= |order| && forall j | 0 <= j < n :: Some(order[j]) in owners
    ensures StopsOf(order + more, owners, n) == StopsOf(order, owners, n)
  {
    if n > 0 {
      StopsPrefix(order, more, owners, n - 1);
    }
  }

  /** Going through tool_order stops the tool blocks in start order. */
  lemma {:induction false} OrderStopsTools(owners: seq<Option<int>>)
    requires Distinct(owners)
    ensures forall j | 0 <= j < |Tools(owners)| :: Some(Tools(owners)[j]) in owners
    ensures StopsOf(Tools(owners), owners, |Tools(owners)|) == ToolStops(owners)
  {
    forall j | 0 <= j < |Tools(owners)| ensures Some(Tools(owners)[j]) in owners {
      ToolsAreOwners(owners, j);
    }
    if owners != [] {
      var rest, last := owners[..|owners| - 1], owners[|owners| - 1];
      assert owners == rest + [last];
      OrderStopsTools(rest);
      StopsInBoth(Tools(rest), rest, last, |Tools(rest)|);
      if last.Some? {
        assert last == Some(last.value) && Tools(owners) == Tools(rest) + [last.value];
        StopsPrefix(Tools(rest), [last.value], owners, |Tools(rest)|);
        PlaceStays(rest, last, last);
        assert ToolStops(owners) == ToolStops(rest) + [BlockStop(|rest|)];
      } else {
        assert Tools(owners) == Tools(rest) + [] == Tools(rest);
        assert ToolStops(owners) == ToolStops(rest) + [] == ToolStops(rest);
      }
    }
  }

  lemma NothingYet()
    ensures CallsIn(map[]) == map[] && Tools([]) == [] && Indexed(None, map[], [])
  {
  }

  class MessageTranslator {
    var started: bool
    var stopped: bool
    var stopReason: string
    var textBlock: Option<nat>
    var text: string
    var toolBlocks: map<int, Entry>
    var toolOrder: seq<int>
    var nextBlock: nat
    var events: seq<Event>
    ghost var log: seq<Event>
    ghost var owners: seq<Option<int>>
    ghost var kinds: seq<Kind>

    ghost function Contents(): View
      reads `started, `owners, `kinds, `text, `toolBlocks, `log
    {
      View(started, owners, kinds, text, CallsIn(toolBlocks), log)
    }

    ghost predicate Valid()
      reads `nextBlock, `owners, `toolOrder, `textBlock, `toolBlocks, `events, `log
    {
      && nextBlock == |owners| && toolOrder == Tools(owners) && Indexed(textBlock, toolBlocks, owners)
      && |events| <= |log| && log[|log| - |events|..] == events
    }

    constructor ()
      ensures Valid() && Contents() == BEGIN && !stopped && events == [] && stopReason == "end_turn"
    {
      started, stopped, stopReason := false, false, "end_turn";
      textBlock, text, toolBlocks, toolOrder, nextBlock := None, "", map[], [], 0;
      events, log, owners, kinds := [], [], [], [];
      NothingYet();
    }

    method Emit(e: Event)
      requires |events| <= |log| && log[|log| - |events|..] == events
      modifies `events, `log
      ensures events == old(events) + [e] && log == old(log) + [e]
      ensures |events| <= |log| && log[|log| - |events|..] == events
    {
      events := events + [e];
      log := log + [e];
    }

    method Start()
      requires Valid()
      modifies `started, `events, `log
      ensures Valid() && Contents() == Started(old(Contents())) && |log| - |events| == old(|log| - |events|)
    {
      if !started {
        started := true;
        Emit(MessageStart);
      }
    }

    method OpenText()
      requires Valid()
      modifies `events, `log, `textBlock, `nextBlock, `owners, `kinds
      ensures Valid() && textBlock.Some? && Contents() == Opened(old(Contents()), None, TextBlock)
      ensures |log| - |events| == old(|log| - |events|)
    {
      if textBlock.None? {
        IndexedMoreText(toolBlocks, owners);
        assert (owners + [None])[..|owners|] == owners;
        textBlock := Some(nextBlock);
        nextBlock := nextBlock + 1;
        owners, kinds := owners + [None], kinds + [TextBlock];
        Emit(BlockStart(textBlock.value, TextBlock));
      }
    }

    method AddText(delta: string)
      requires Valid()
      modifies `started, `events, `log, `textBlock, `text, `nextBlock, `owners, `kinds
      ensures Valid() && Contents() == AnthropicStream.AddText(old(Contents()), delta)
      ensures |log| - |events| == old(|log| - |events|)
    {
      Start();
      OpenText();
      text := text + delta;
      Emit(TextDelta(textBlock.value, delta));
    }

    /** A new entry and the start of its block. */
    method NewEntry(d: CallDelta)
      requires Valid() && d.index !in toolBlocks
      modifies `events, `log, `toolBlocks, `toolOrder, `nextBlock, `owners, `kinds
      ensures Valid() && d.index in toolBlocks
      ensures Contents() == Opened(old(Contents()), Some(d.index), ToolBlock(d.id, d.name))
                              .(calls := old(Contents()).calls[d.index := Call(d.id, d.name, "")])
      ensures |log| - |events| == old(|log| - |events|)
    {
      var entry := Entry(nextBlock, Call(d.id, d.name, ""));
      IndexedMoreTool(textBlock, toolBlocks, owners, d, entry.call);
      CallsInUpdate(toolBlocks, d.index, entry);
      assert (owners + [Some(d.index)])[..|owners|] == owners;
      nextBlock := nextBlock + 1;
      toolBlocks := toolBlocks[d.index := entry];
      toolOrder := toolOrder + [d.index];
      owners, kinds := owners + [Some(d.index)], kinds + [ToolBlock(d.id, d.name)];
      Emit(BlockStart(entry.index, ToolBlock(entry.call.id, entry.call.name)));
    }

    method Rename(d: CallDelta)
      requires Valid() && d.index in toolBlocks
      modifies `toolBlocks
      ensures Valid() && d.index in toolBlocks
      ensures Contents() == old(Contents()).(calls := MergeCall(old(Contents()).calls, d.(arguments := "")))
    {
      var entry := toolBlocks[d.index];
      if d.id != "" {
        entry := entry.(call := entry.call.(id := d.id));
      }
      if d.name != "" {
        entry := entry.(call := entry.call.(name := d.name));
      }
      IndexedSame(textBlock, toolBlocks, owners, d.index, entry.call);
      CallsInUpdate(toolBlocks, d.index, entry);
      Renamed(toolBlocks[d.index].call, d);
      toolBlocks := toolBlocks[d.index := entry];
    }

    /** The entry for a call index, made or renamed, and its block, opened if new. */
    method ToolEntry(d: CallDelta)
      requires Valid()
      modifies `events, `log, `toolBlocks, `toolOrder, `nextBlock, `owners, `kinds
      ensures Valid() && d.index in toolBlocks
      ensures Contents() == Opened(old(Contents()), Some(d.index), ToolBlock(d.id, d.name))
                              .(calls := MergeCall(old(Contents()).calls, d.(arguments := "")))
      ensures |log| - |events| == old(|log| - |events|)
    {
      if d.index !in toolBlocks {
        Renamed(Call("", "", ""), d);
        NewEntry(d);
      } else {
        Rename(d);
      }
    }

    method AddArguments(index: int, arguments: string)
      requires Valid() && index in toolBlocks
      modifies `events, `log, `toolBlocks
      ensures Valid()
      ensures var v := old(Contents());
        Contents() == v.(calls := v.calls[index := v.calls[index].(arguments := v.calls[index].arguments + arguments)],
                         log := v.log + [JsonDelta(Place(v.owners, Some(index)), arguments)])
      ensures |log| - |events| == old(|log| - |events|)
    {
      var entry := toolBlocks[index];
      var longer := entry.(call := entry.call.(arguments := entry.call.arguments + arguments));
      IndexedSame(textBlock, toolBlocks, owners, index, longer.call);
      CallsInUpdate(toolBlocks, index, longer);
      toolBlocks := toolBlocks[index := longer];
      Emit(JsonDelta(entry.index, arguments));
    }

    method AddToolDelta(d: CallDelta)
      requires Valid()
      modifies `started, `events, `log, `toolBlocks, `toolOrder, `nextBlock, `owners, `kinds
      ensures Valid() && Contents() == AddCall(old(Contents()), d)
      ensures |log| - |events| == old(|log| - |events|)
    {
      MergeInTwo(Contents().calls, d);
      Start();
      ToolEntry(d);
      if d.arguments != "" {
        AddArguments(d.index, d.arguments);
      }
    }

    method AddToolDeltas(ds: seq<CallDelta>)
      requires Valid()
      modifies `started, `events, `log, `toolBlocks, `toolOrder, `nextBlock, `owners, `kinds
      ensures Valid() && Contents() == AddCalls(old(Contents()), ds)
      ensures |log| - |events| == old(|log| - |events|)
    {
      ghost var begun := Contents();
      for i := 0 to |ds|
        invariant Valid() && Contents() == AddCalls(begun, ds[..i]) && |log| - |events| == old(|log| - |events|)
      {
        assert ds[..i + 1][..i] == ds[..i];
        AddToolDelta(ds[i]);
      }
      assert ds[..|ds|] == ds;
    }

    method AddContent(content: string)
      requires Valid()
      modifies `started, `events, `log, `textBlock, `text, `nextBlock, `owners, `kinds
      ensures Valid() && |log| - |events| == old(|log| - |events|)
      ensures Contents() == if content != "" then AnthropicStream.AddText(old(Contents()), content) else old(Contents())
    {
      if content != "" {
        AddText(content);
      }
    }

    method ConsumeDelta(content: string, calls: seq<CallDelta>)
      requires Valid()
      modifies `started, `events, `log, `textBlock, `text, `toolBlocks, `toolOrder, `nextBlock, `owners, `kinds
      ensures Valid() && |log| - |events| == old(|log| - |events|)
      ensures Contents() == WithDelta(old(Contents()), content, calls)
    {
      AddContent(content);
      AddToolDeltas(calls);
    }

    method Consume(chunk: Chunk)
      requires Valid()
      modifies this
      ensures Valid() && Contents() == Consumed(old(Contents()), chunk) && stopped == old(stopped)
      ensures |log| - |events| == old(|log| - |events|)
      ensures stopReason == if chunk.Choice? && chunk.finish != "" then StopReason(chunk.finish) else old(stopReason)
    {
      if chunk.Choice? {
        ConsumeDelta(chunk.content, chunk.calls);
        if chunk.finish != "" {
          stopReason := StopReason(chunk.finish);
        }
      }
    }

    /** One arrival of bytes: the batch holds what it emitted. */
    method Feed(chunks: seq<Chunk>)
      requires Valid()
      modifies this
      ensures Valid() && Contents() == ConsumedAll(old(Contents()), chunks) && stopped == old(stopped)
      ensures |log| - |events| == |old(log)|
      ensures stopReason == Reason(old(stopReason), chunks)
    {
      events := [];
      ghost var begun := Contents();
      for i := 0 to |chunks|
        invariant Valid() && Contents() == ConsumedAll(begun, chunks[..i]) && |log| - |events| == |old(log)|
        invariant stopped == old(stopped) && stopReason == Reason(old(stopReason), chunks[..i])
      {
        assert chunks[..i + 1][..i] == chunks[..i];
        Consume(chunks[i]);
      }
      assert chunks[..|chunks|] == chunks;
    }

    method StopTools()
      requires Valid()
      modifies `events, `log
      ensures Valid() && log == old(log) + ToolStops(owners) && |log| - |events| == old(|log| - |events|)
    {
      OrderStopsTools(owners);
      for j := 0 to |toolOrder|
        invariant Valid() && log == old(log) + StopsOf(toolOrder, owners, j) && |log| - |events| == old(|log| - |events|)
      {
        EntryOf(textBlock, toolBlocks, owners, toolOrder[j]);
        Emit(BlockStop(toolBlocks[toolOrder[j]].index));
      }
    }

    method FinishBlocks()
      requires Valid()
      modifies `events, `log
      ensures Valid() && log == old(log) + Stops(owners) && |log| - |events| == old(|log| - |events|)
    {
      if textBlock.Some? {
        Emit(BlockStop(textBlock.value));
      }
      assert log == old(log) + TextStop(owners);
      StopTools();
    }

    method Finish()
      requires Valid()
      modifies this
      ensures Valid() && stopped && |log| - |events| == old(|log| - |events|)
      ensures log == if old(stopped) then old(log)
        else var v := Started(old(Contents())); v.log + Ending(v, old(stopReason))
    {
      if stopped {
        return;
      }
      Start();
      FinishBlocks();
      Emit(MessageDelta(stopReason));
      Emit(MessageStop);
      stopped := true;
    }

    method Fail(message: string)
      requires Valid()
      modifies this
      ensures Valid() && stopped && |log| - |events| == old(|log| - |events|)
      ensures log == old(log) + if old(stopped) then [] else [ErrorEvent(message)]
    {
      if stopped {
        return;
      }
      Emit(ErrorEvent(message));
      stopped := true;
    }
  }

  /** The stop reason after these chunks: that of the last finish reason given. */
  function Reason(start: string, chunks: seq<Chunk>): string {
    if chunks == [] then start
    else
      var last := chunks[|chunks| - 1];
      if last.Choice? && last.finish != "" then StopReason(last.finish) else Reason(start, chunks[..|chunks| - 1])
  }

  // ---------------------------------------------------------------- what the client receives

  lemma {:induction false} ConsumedInParts(v: View, a: seq<Chunk>, b: seq<Chunk>)
    ensures ConsumedAll(v, a + b) == ConsumedAll(ConsumedAll(v, a), b)
  {
    if b == [] {
      assert a + b == a;
    } else {
      ConsumedInParts(v, a, b[..|b| - 1]);
      assert (a + b)[..|a + b| - 1] == a + b[..|b| - 1];
    }
  }

  lemma {:induction false} ReasonInParts(start: string, a: seq<Chunk>, b: seq<Chunk>)
    ensures Reason(start, a + b) == Reason(Reason(start, a), b)
  {
    if b == [] {
      assert a + b == a;
    } else {
      ReasonInParts(start, a, b[..|b| - 1]);
      assert (a + b)[..|a + b| - 1] == a + b[..|b| - 1];
    }
  }

  /** How many events were out before the last batch began. */
  function BeforeLast(feeds: seq<seq<Chunk>>): nat {
    if feeds == [] then 0 else |ConsumedAll(Started(BEGIN), Joined(feeds[..|feeds| - 1])).log|
  }

  datatype Outcome = Finishes | Breaks(message: string)

  function FullLog(feeds: seq<seq<Chunk>>, outcome: Outcome): seq<Event> {
    var v := ConsumedAll(Started(BEGIN), Joined(feeds));
    v.log + match outcome
            case Finishes => Ending(v, Reason("end_turn", Joined(feeds)))
            case Breaks(message) => [ErrorEvent(message)]
  }

  /** The translator after these arrivals, all of it passed on. */
  ghost predicate Fed(translator: MessageTranslator, feeds: seq<seq<Chunk>>, client: seq<Event>)
    reads translator
  {
    && translator.Valid() && !translator.stopped && translator.started && client == translator.log
    && translator.Contents() == ConsumedAll(Started(BEGIN), Joined(feeds))
    && |translator.log| - |translator.events| == BeforeLast(feeds)
    && translator.stopReason == Reason("end_turn", Joined(feeds))
  }

  lemma OneMoreFeed(feeds: seq<seq<Chunk>>, chunks: seq<Chunk>, v: View)
    requires v == ConsumedAll(Started(BEGIN), Joined(feeds)) && v.started
    ensures var after := ConsumedAll(v, chunks);
      && after == ConsumedAll(Started(BEGIN), Joined(feeds + [chunks])) && after.started && v.log <= after.log
      && BeforeLast(feeds + [chunks]) == |v.log|
      && Reason("end_turn", Joined(feeds + [chunks])) == Reason(Reason("end_turn", Joined(feeds)), chunks)
  {
    assert (feeds + [chunks])[..|feeds|] == feeds;
    ConsumedInParts(Started(BEGIN), Joined(feeds), chunks);
    ReasonInParts("end_turn", Joined(feeds), chunks);
    AllStayStarted(v, chunks);
    LogGrows(v, chunks);
  }

  method FeedOne(translator: MessageTranslator, ghost feeds: seq<seq<Chunk>>, chunks: seq<Chunk>, client: seq<Event>)
    returns (longer: seq<Event>)
    requires Fed(translator, feeds, client)
    modifies translator
    ensures Fed(translator, feeds + [chunks], longer)
  {
    ghost var before := translator.Contents();
    OneMoreFeed(feeds, chunks, before);
    translator.Feed(chunks);
    Continues(client, translator.log, translator.events);
    longer := client + translator.events;
  }

  lemma NothingFed()
    ensures Joined([]) == [] && ConsumedAll(Started(BEGIN), []) == Started(BEGIN)
    ensures BeforeLast([]) == 0 && Reason("end_turn", []) == "end_turn"
  {
  }

  /** A new translator and the opening it sends. */
  method Begin() returns (translator: MessageTranslator, client: seq<Event>)
    ensures fresh(translator) && Fed(translator, [], client)
  {
    translator := new MessageTranslator();
    translator.Start();
    client := translator.events;
    NothingFed();
    assert translator.log[0..] == translator.log;
  }

  lemma FeedsSoFar(feeds: seq<seq<Chunk>>, i: nat)
    requires i < |feeds|
    ensures feeds[..i] + [feeds[i]] == feeds[..i + 1]
  {
  }

  /** The opening and every arrival, passed on as they come. */
  method FeedAll(feeds: seq<seq<Chunk>>) returns (translator: MessageTranslator, client: seq<Event>)
    ensures fresh(translator) && Fed(translator, feeds, client)
  {
    translator, client := Begin();
    for i := 0 to |feeds|
      invariant fresh(translator) && Fed(translator, feeds[..i], client)
    {
      FeedsSoFar(feeds, i);
      client := FeedOne(translator, feeds[..i], feeds[i], client);
    }
    assert feeds[..|feeds|] == feeds;
  }

  /** The ending goes into the batch that is still held. */
  method Conclude(translator: MessageTranslator, ghost feeds: seq<seq<Chunk>>, outcome: Outcome, ghost client: seq<Event>)
    requires Fed(translator, feeds, client)
    modifies translator
    ensures translator.Valid() && translator.log == FullLog(feeds, outcome)
    ensures |translator.log| - |translator.events| == BeforeLast(feeds)
  {
    match outcome {
      case Finishes => translator.Finish();
      case Breaks(message) => translator.Fail(message);
    }
  }

  lemma FullLogBegins(feeds: seq<seq<Chunk>>, outcome: Outcome)
    ensures var v := ConsumedAll(Started(BEGIN), Joined(feeds));
      |v.log| <= |FullLog(feeds, outcome)| && FullLog(feeds, outcome)[..|v.log|] == v.log && BeforeLast(feeds) <= |v.log|
  {
    if feeds != [] {
      var rest := feeds[..|feeds| - 1];
      ConsumedInParts(Started(BEGIN), Joined(rest), feeds[|feeds| - 1]);
      LogGrows(ConsumedAll(Started(BEGIN), Joined(rest)), feeds[|feeds| - 1]);
    }
  }

  /** The client receives the log with the last batch before the ending twice, and so the log itself exactly when
      that batch was empty. */
  method WrapStream(feeds: seq<seq<Chunk>>, outcome: Outcome) returns (client: seq<Event>)
    ensures var log, v := FullLog(feeds, outcome), ConsumedAll(Started(BEGIN), Joined(feeds));
      && BeforeLast(feeds) <= |v.log| <= |log|
      && client == log[..|v.log|] + log[BeforeLast(feeds)..]
      && (client == log <==> BeforeLast(feeds) == |v.log|)
  {
    var translator;
    translator, client := FeedAll(feeds);
    Conclude(translator, feeds, outcome, client);
    FullLogBegins(feeds, outcome);
    Twice(client, translator.log, translator.events, BeforeLast(feeds));
    client := client + translator.events;
  }

  lemma {:induction false} AllStayStarted(v: View, chunks: seq<Chunk>)
    requires v.started
    ensures ConsumedAll(v, chunks).started
  {
    if chunks != [] {
      AllStayStarted(v, chunks[..|chunks| - 1]);
      StaysStarted(ConsumedAll(v, chunks[..|chunks| - 1]), chunks[|chunks| - 1]);
    }
  }

  lemma {:induction false} CallsGrow(v: View, ds: seq<CallDelta>)
    ensures v.log <= AddCalls(v, ds).log
  {
    if ds != [] {
      CallsGrow(v, ds[..|ds| - 1]);
    }
  }

  lemma {:induction false} LogGrows(v: View, chunks: seq<Chunk>)
    ensures v.log <= ConsumedAll(v, chunks).log
  {
    if chunks != [] {
      var rest, last := chunks[..|chunks| - 1], chunks[|chunks| - 1];
      LogGrows(v, rest);
      if last.Choice? {
        var w := ConsumedAll(v, rest);
        CallsGrow(if last.content != "" then AnthropicStream.AddText(w, last.content) else w, last.calls);
      }
    }
  }

  lemma CallsInUpdate(toolBlocks: map<int, Entry>, k: int, entry: Entry)
    ensures CallsIn(toolBlocks[k := entry]) == CallsIn(toolBlocks)[k := entry.call]
  {
  }

  lemma MergeInTwo(calls: map<int, Call>, d: CallDelta)
    ensures var named := MergeCall(calls, d.(arguments := ""));
      MergeCall(calls, d) == named[d.index := named[d.index].(arguments := named[d.index].arguments + d.arguments)]
    ensures d.arguments == "" ==> d.(arguments := "") == d
  {
    var call := if d.index in calls then calls[d.index] else Call("", "", "");
    Renamed(call, d);
  }

  lemma Renamed(call: Call, d: CallDelta)
    ensures Merged(call, d.(arguments := "")) == Call(Or(d.id, call.id), Or(d.name, call.name), call.arguments)
  {
    assert call.arguments + "" == call.arguments;
  }
}
