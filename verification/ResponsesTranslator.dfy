/**
 The streaming translator in place (smart-router/src/smart_router/responses.py:437-767).
 */
module ResponsesTranslator {
  import opened Collections
  import opened ChatStream
  import opened ResponsesStream
  import opened ResponsesEvents

  datatype Entry = Entry(call: Call, place: nat)

  ghost function CallsIn(items: map<int, Entry>): map<int, Call> {
    map k | k in items :: items[k].call
  }

  lemma CallsInUpdate(items: map<int, Entry>, k: int, entry: Entry)
    ensures CallsIn(items[k := entry]) == CallsIn(items)[k := entry.call]
  {
  }

  /** Each entry knows its output index. */
  ghost predicate Placed(order: seq<int>, items: map<int, Entry>) {
    && Distinct(order)
    && (forall i | 0 <= i < |order| :: order[i] in items && items[order[i]].place == i + 1)
    && forall k | k in items :: k in order
  }

  lemma PlacedNew(order: seq<int>, items: map<int, Entry>, k: int, call: Call)
    requires Placed(order, items) && k !in items
    ensures Placed(order + [k], items[k := Entry(call, |order| + 1)])
  {
    forall i | 0 <= i < |order| ensures order[i] != k {
      assert order[i] in items;
    }
    forall m | m in items[k := Entry(call, |order| + 1)] ensures m in order + [k] {
      assert m in items ==> m in order;
    }
  }

  lemma PlacedSame(order: seq<int>, items: map<int, Entry>, k: int, call: Call)
    requires Placed(order, items) && k in items
    ensures Placed(order, items[k := Entry(call, items[k].place)])
  {
  }

  lemma PlaceIs(order: seq<int>, items: map<int, Entry>, k: int)
    requires Placed(order, items) && k in items
    ensures k in order && items[k].place == PlaceOf(order, k)
  {
    assert k in order;
    assert order[PlaceOf(order, k) - 1] == k;
  }

  lemma PlacedCovers(order: seq<int>, items: map<int, Entry>)
    requires Placed(order, items)
    ensures Covers(order, CallsIn(items))
  {
  }

  lemma NothingYet()
    ensures CallsIn(map[]) == map[] && Placed([], map[])
  {
  }

  class StreamTranslator {
    var sequence: nat
    var createdSent: bool
    var completed: bool
    var finishReason: string
    var messageStarted: bool
    var messageText: string
    var toolItems: map<int, Entry>
    var toolOrder: seq<int>
    var outputIndex: nat
    var events: Log
    ghost var log: Log

    ghost function Contents(): View
      reads `createdSent, `messageStarted, `messageText, `toolOrder, `toolItems, `finishReason, `log
    {
      View(createdSent, messageStarted, messageText, toolOrder, CallsIn(toolItems), finishReason, log)
    }

    ghost predicate Valid()
      reads `sequence, `toolOrder, `toolItems, `outputIndex, `events, `log
    {
      && sequence == |log| && Placed(toolOrder, toolItems) && outputIndex == |toolOrder| + 1
      && |events| <= |log| && log[|log| - |events|..] == events
    }

    constructor ()
      ensures Valid() && Contents() == BEGIN && !completed && events == []
    {
      sequence, createdSent, completed, finishReason := 0, false, false, "stop";
      messageStarted, messageText, toolItems, toolOrder, outputIndex := false, "", map[], [], 1;
      events, log := [], [];
      NothingYet();
    }

    method Emit(e: Event)
      requires Valid()
      modifies `sequence, `events, `log
      ensures Valid() && log == Push(old(log), e) && |log| - |events| == old(|log| - |events|)
    {
      sequence := sequence + 1;
      events := events + [Emitted(sequence, e)];
      log := log + [Emitted(sequence, e)];
    }

    method Start()
      requires Valid()
      modifies `createdSent, `sequence, `events, `log
      ensures Valid() && Contents() == Sent(old(Contents())) && |log| - |events| == old(|log| - |events|)
    {
      if !createdSent {
        createdSent := true;
        Emit(Created);
        Emit(InProgress);
      }
    }

    method OpenMessage()
      requires Valid()
      modifies `messageStarted, `sequence, `events, `log
      ensures Valid() && Contents() == Opened(old(Contents())) && |log| - |events| == old(|log| - |events|)
    {
      if !messageStarted {
        messageStarted := true;
        Emit(ItemAdded(0, Message("")));
        Emit(PartAdded);
      }
    }

    method AddText(delta: string)
      requires Valid()
      modifies `createdSent, `messageStarted, `messageText, `sequence, `events, `log
      ensures Valid() && Contents() == ResponsesEvents.AddText(old(Contents()), delta)
      ensures |log| - |events| == old(|log| - |events|)
    {
      Start();
      OpenMessage();
      messageText := messageText + delta;
      Emit(TextDelta(delta));
    }

    method ToolEntry(d: CallDelta)
      requires Valid()
      modifies `toolItems, `toolOrder, `outputIndex, `sequence, `events, `log
      ensures Valid() && d.index in toolItems && Contents() == ResponsesEvents.ToolEntry(old(Contents()), d)
      ensures |log| - |events| == old(|log| - |events|)
    {
      if d.index !in toolItems {
        var entry := Entry(Call(d.id, d.name, ""), outputIndex);
        PlacedNew(toolOrder, toolItems, d.index, entry.call);
        CallsInUpdate(toolItems, d.index, entry);
        PlacedCovers(toolOrder, toolItems);
        toolItems := toolItems[d.index := entry];
        toolOrder := toolOrder + [d.index];
        outputIndex := outputIndex + 1;
        Emit(ItemAdded(entry.place, Function(entry.call)));
      } else {
        var call := toolItems[d.index].call;
        if d.id != "" {
          call := call.(id := d.id);
        }
        if d.name != "" {
          call := call.(name := d.name);
        }
        PlacedSame(toolOrder, toolItems, d.index, call);
        CallsInUpdate(toolItems, d.index, Entry(call, toolItems[d.index].place));
        PlaceIs(toolOrder, toolItems, d.index);
        toolItems := toolItems[d.index := Entry(call, toolItems[d.index].place)];
      }
    }

    method AddArguments(index: int, arguments: string)
      requires Valid() && index in toolItems && index in toolOrder
      modifies `toolItems, `sequence, `events, `log
      ensures Valid() && Contents() == ResponsesEvents.AddArguments(old(Contents()), index, arguments)
      ensures |log| - |events| == old(|log| - |events|)
    {
      var entry := toolItems[index];
      var longer := entry.call.(arguments := entry.call.arguments + arguments);
      PlacedSame(toolOrder, toolItems, index, longer);
      CallsInUpdate(toolItems, index, Entry(longer, entry.place));
      PlaceIs(toolOrder, toolItems, index);
      toolItems := toolItems[index := Entry(longer, entry.place)];
      Emit(ArgsDelta(entry.place, arguments));
    }

    method AddToolDelta(d: CallDelta)
      requires Valid()
      modifies `createdSent, `toolItems, `toolOrder, `outputIndex, `sequence, `events, `log
      ensures Valid() && Contents() == ResponsesEvents.AddToolDelta(old(Contents()), d)
      ensures |log| - |events| == old(|log| - |events|)
    {
      Start();
      ToolEntry(d);
      if d.arguments != "" {
        PlaceIs(toolOrder, toolItems, d.index);
        AddArguments(d.index, d.arguments);
      }
    }

    method AddToolDeltas(ds: seq<CallDelta>)
      requires Valid()
      modifies `createdSent, `toolItems, `toolOrder, `outputIndex, `sequence, `events, `log
      ensures Valid() && Contents() == ResponsesEvents.AddToolDeltas(old(Contents()), ds)
      ensures |log| - |events| == old(|log| - |events|)
    {
      ghost var begun := Contents();
      for i := 0 to |ds|
        invariant Valid() && Contents() == ResponsesEvents.AddToolDeltas(begun, ds[..i])
        invariant |log| - |events| == old(|log| - |events|)
      {
        assert ds[..i + 1][..i] == ds[..i];
        AddToolDelta(ds[i]);
      }
      assert ds[..|ds|] == ds;
    }

    method AddContent(content: string)
      requires Valid()
      modifies `createdSent, `messageStarted, `messageText, `sequence, `events, `log
      ensures Valid() && |log| - |events| == old(|log| - |events|)
      ensures Contents() == if content != "" then ResponsesEvents.AddText(old(Contents()), content) else old(Contents())
    {
      if content != "" {
        AddText(content);
      }
    }

    method ConsumeDelta(content: string, calls: seq<CallDelta>)
      requires Valid()
      modifies `createdSent, `messageStarted, `messageText, `toolItems, `toolOrder, `outputIndex, `sequence, `events, `log
      ensures Valid() && Contents() == WithDelta(old(Contents()), content, calls)
      ensures |log| - |events| == old(|log| - |events|)
    {
      AddContent(content);
      AddToolDeltas(calls);
    }

    method Consume(chunk: Chunk)
      requires Valid()
      modifies this
      ensures Valid() && Contents() == Consumed(old(Contents()), chunk) && completed == old(completed)
      ensures |log| - |events| == old(|log| - |events|)
    {
      if chunk.Choice? {
        ConsumeDelta(chunk.content, chunk.calls);
        if chunk.finish != "" {
          finishReason := chunk.finish;
        }
      }
    }

    method Feed(chunks: seq<Chunk>)
      requires Valid()
      modifies this
      ensures Valid() && Contents() == ConsumedAll(old(Contents()), chunks) && completed == old(completed)
      ensures |log| - |events| == |old(log)|
    {
      events := [];
      ghost var begun := Contents();
      for i := 0 to |chunks|
        invariant Valid() && Contents() == ConsumedAll(begun, chunks[..i]) && |log| - |events| == |old(log)|
        invariant completed == old(completed)
      {
        assert chunks[..i + 1][..i] == chunks[..i];
        Consume(chunks[i]);
      }
      assert chunks[..|chunks|] == chunks;
    }

    method FinishMessage() returns (items: seq<Item>)
      requires Valid()
      modifies `sequence, `events, `log
      ensures Valid() && log == PushAll(old(log), MessageDone(old(Contents()))) && |log| - |events| == old(|log| - |events|)
      ensures items == if messageStarted then [Message(messageText)] else []
    {
      if !messageStarted {
        return [];
      }
      PushThree(log, TextDone(messageText), PartDone(messageText), ItemDone(0, Message(messageText)));
      Emit(TextDone(messageText));
      Emit(PartDone(messageText));
      Emit(ItemDone(0, Message(messageText)));
      return [Message(messageText)];
    }

    method FinishTools() returns (items: seq<Item>)
      requires Valid()
      modifies `sequence, `events, `log
      ensures Valid() && Covers(toolOrder, CallsIn(toolItems)) && |log| - |events| == old(|log| - |events|)
      ensures log == PushAll(old(log), ToolsDone(InOrder(CallsIn(toolItems), toolOrder)))
      ensures items == Functions(InOrder(CallsIn(toolItems), toolOrder))
    {
      PlacedCovers(toolOrder, toolItems);
      ghost var calls := InOrder(CallsIn(toolItems), toolOrder);
      items := [];
      for i := 0 to |toolOrder|
        invariant Valid() && |log| - |events| == old(|log| - |events|)
        invariant log == PushAll(old(log), ToolsDone(calls[..i])) && items == Functions(calls[..i])
      {
        var entry := toolItems[toolOrder[i]];
        OneMoreTool(old(log), calls, i);
        Emit(ArgsDone(entry.place, entry.call.arguments));
        Emit(ItemDone(entry.place, Function(entry.call)));
        items := items + [Function(entry.call)];
      }
      assert calls[..|toolOrder|] == calls;
    }

    method Finish()
      requires Valid()
      modifies this
      ensures Valid() && completed && |log| - |events| == old(|log| - |events|)
      ensures Covers(old(Contents()).order, old(Contents()).calls)
      ensures log == if old(completed) then old(log) else Finished(Sent(old(Contents())))
    {
      PlacedCovers(toolOrder, toolItems);
      if completed {
        return;
      }
      Start();
      var message := FinishMessage();
      var tools := FinishTools();
      Emit(ResponseCompleted(Answer(FinishState(finishReason), message + tools)));
      completed := true;
    }

    method Fail(message: string)
      requires Valid()
      modifies this
      ensures Valid() && completed && |log| - |events| == old(|log| - |events|)
      ensures Covers(old(Contents()).order, old(Contents()).calls)
      ensures log == if old(completed) then old(log) else Failed(old(Contents()), message)
    {
      PlacedCovers(toolOrder, toolItems);
      if completed {
        return;
      }
      var said := FinishMessage();
      var tools := FinishTools();
      Emit(ResponseFailed(said + tools, message));
      completed := true;
    }
  }

  lemma OneMoreTool(log: Log, calls: seq<Call>, i: nat)
    requires i < |calls|
    ensures PushAll(log, ToolsDone(calls[..i + 1]))
      == Push(Push(PushAll(log, ToolsDone(calls[..i])), ArgsDone(i + 1, calls[i].arguments)), ItemDone(i + 1, Function(calls[i])))
    ensures Functions(calls[..i + 1]) == Functions(calls[..i]) + [Function(calls[i])]
  {
    assert calls[..i + 1][..i] == calls[..i];
    var es, a, b := ToolsDone(calls[..i]), ArgsDone(i + 1, calls[i].arguments), ItemDone(i + 1, Function(calls[i]));
    assert ToolsDone(calls[..i + 1]) == es + [a, b];
    assert (es + [a, b])[..|es| + 1] == es + [a] && (es + [a])[..|es|] == es;
    assert PushAll(log, es + [a]) == Push(PushAll(log, es), a);
  }

  // ---------------------------------------------------------------- what the client receives

  lemma {:induction false} ConsumedInParts(v: View, a: seq<Chunk>, b: seq<Chunk>)
    ensures ConsumedAll(v, a + b) == ConsumedAll(ConsumedAll(v, a), b)
  {
    if b == [] {
      assert a + b == a;
    } else {
      ConsumedInParts(v, a, b[..|b| - 1]);
      assert (a + b)[..|a + b| - 1] == a + b[..|b| - 1];
    }
  }

  lemma {:induction false} DeltasGrow(v: View, ds: seq<CallDelta>)
    ensures v.log <= AddToolDeltas(v, ds).log && (v.sent ==> AddToolDeltas(v, ds).sent)
  {
    if ds != [] {
      DeltasGrow(v, ds[..|ds| - 1]);
    }
  }

  lemma ChunkGrows(v: View, chunk: Chunk)
    ensures v.log <= Consumed(v, chunk).log && (v.sent ==> Consumed(v, chunk).sent)
  {
    if chunk.Choice? {
      DeltasGrow(if chunk.content != "" then ResponsesEvents.AddText(v, chunk.content) else v, chunk.calls);
    }
  }

  lemma {:induction false} LogGrows(v: View, chunks: seq<Chunk>)
    ensures v.log <= ConsumedAll(v, chunks).log && (v.sent ==> ConsumedAll(v, chunks).sent)
  {
    if chunks != [] {
      LogGrows(v, chunks[..|chunks| - 1]);
      ChunkGrows(ConsumedAll(v, chunks[..|chunks| - 1]), chunks[|chunks| - 1]);
    }
  }

  lemma {:induction false} PushAllGrows(log: Log, es: seq<Event>)
    ensures log <= PushAll(log, es)
  {
    if es != [] {
      PushAllGrows(log, es[..|es| - 1]);
    }
  }

  /** How many events were out before the last batch began. */
  function BeforeLast(feeds: seq<seq<Chunk>>): nat {
    if feeds == [] then 0 else |ConsumedAll(Sent(BEGIN), Joined(feeds[..|feeds| - 1])).log|
  }

  /** The log of a stream that ends, or breaks with a message. */
  function FullLog(feeds: seq<seq<Chunk>>, broken: Option<string>): Log {
    StreamFits(Joined(feeds));
    var v := ConsumedAll(Sent(BEGIN), Joined(feeds));
    if broken.Some? then Failed(v, broken.value) else Finished(v)
  }

  lemma FullLogGrows(feeds: seq<seq<Chunk>>, broken: Option<string>)
    ensures ConsumedAll(Sent(BEGIN), Joined(feeds)).log <= FullLog(feeds, broken)
  {
    StreamFits(Joined(feeds));
    var v := ConsumedAll(Sent(BEGIN), Joined(feeds));
    PushAllGrows(v.log, MessageDone(v));
    PushAllGrows(PushAll(v.log, MessageDone(v)), ToolsDone(InOrder(v.calls, v.order)));
  }

  /** The translator after these arrivals, all of it passed on. */
  ghost predicate Fed(translator: StreamTranslator, feeds: seq<seq<Chunk>>, client: Log)
    reads translator
  {
    && translator.Valid() && !translator.completed && translator.createdSent && client == translator.log
    && translator.Contents() == ConsumedAll(Sent(BEGIN), Joined(feeds))
    && |translator.log| - |translator.events| == BeforeLast(feeds)
  }

  lemma OneMoreFeed(feeds: seq<seq<Chunk>>, chunks: seq<Chunk>, v: View)
    requires v == ConsumedAll(Sent(BEGIN), Joined(feeds)) && v.sent
    ensures var after := ConsumedAll(v, chunks);
      && after == ConsumedAll(Sent(BEGIN), Joined(feeds + [chunks])) && after.sent && v.log <= after.log
      && BeforeLast(feeds + [chunks]) == |v.log|
  {
    assert (feeds + [chunks])[..|feeds|] == feeds;
    ConsumedInParts(Sent(BEGIN), Joined(feeds), chunks);
    LogGrows(v, chunks);
  }

  method FeedOne(translator: StreamTranslator, ghost feeds: seq<seq<Chunk>>, chunks: seq<Chunk>, client: Log)
    returns (longer: Log)
    requires Fed(translator, feeds, client)
    modifies translator
    ensures Fed(translator, feeds + [chunks], longer)
  {
    ghost var before := translator.Contents();
    OneMoreFeed(feeds, chunks, before);
    translator.Feed(chunks);
    Continues(client, translator.log, translator.events);
    longer := client + translator.events;
  }

  /** The opening and every arrival, passed on as they come. */
  method FeedAll(translator: StreamTranslator, feeds: seq<seq<Chunk>>) returns (client: Log)
    requires translator.Valid() && translator.Contents() == BEGIN && !translator.completed && translator.events == []
    modifies translator
    ensures Fed(translator, feeds, client)
  {
    translator.Start();
    client := translator.events;
    for i := 0 to |feeds|
      invariant Fed(translator, feeds[..i], client)
    {
      assert feeds[..i + 1] == feeds[..i] + [feeds[i]];
      client := FeedOne(translator, feeds[..i], feeds[i], client);
    }
    assert feeds[..|feeds|] == feeds;
  }

  /** The client receives the log with the last batch before the ending twice, and so the log itself exactly when
      that batch was empty. */
  method WrapStream(feeds: seq<seq<Chunk>>, broken: Option<string>) returns (client: Log)
    ensures var log, sent := FullLog(feeds, broken), |ConsumedAll(Sent(BEGIN), Joined(feeds)).log|;
      && BeforeLast(feeds) <= sent <= |log|
      && client == log[..sent] + log[BeforeLast(feeds)..]
      && (client == log <==> BeforeLast(feeds) == sent)
  {
    var translator := new StreamTranslator();
    client := FeedAll(translator, feeds);
    FullLogGrows(feeds, broken);
    if broken.Some? {
      translator.Fail(broken.value);
    } else {
      translator.Finish();
    }
    Twice(client, translator.log, translator.events, BeforeLast(feeds));
    client := client + translator.events;
  }
}
