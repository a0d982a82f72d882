/**
 The events of the streaming translator, on values (smart-router/src/smart_router/responses.py:437-767).

 An entry's item is announced by the call that creates the entry, so an entry here is always announced.
 */
module ResponsesEvents {
  import opened Collections
  import opened ChatStream
  import opened Text
  import opened ResponsesStream

  datatype Event =
    | Created | InProgress
    | ItemAdded(place: nat, item: Item) | PartAdded
    | TextDelta(text: string) | ArgsDelta(place: nat, arguments: string)
    | TextDone(text: string) | PartDone(text: string) | ArgsDone(place: nat, arguments: string)
    | ItemDone(place: nat, item: Item)
    | ResponseCompleted(answer: Answer) | ResponseFailed(output: seq<Item>, message: string)

  /** An event with its sequence number. */
  datatype Emitted = Emitted(number: nat, event: Event)

  type Log = seq<Emitted>

  function Push(log: Log, e: Event): Log {
    log + [Emitted(|log| + 1, e)]
  }

  function PushAll(log: Log, es: seq<Event>): Log {
    if es == [] then log else Push(PushAll(log, es[..|es| - 1]), es[|es| - 1])
  }

  lemma PushTwo(log: Log, es: seq<Event>, a: Event, b: Event)
    ensures PushAll(log, es + [a, b]) == Push(Push(PushAll(log, es), a), b)
  {
    assert (es + [a, b])[..|es| + 1] == es + [a] && (es + [a])[..|es|] == es;
  }

  lemma PushThree(log: Log, a: Event, b: Event, c: Event)
    ensures PushAll(log, [a, b, c]) == Push(Push(Push(log, a), b), c)
  {
    assert [a, b, c] == [a] + [b, c] && [a][..0] == [];
    PushTwo(log, [a], b, c);
  }

  // ---------------------------------------------------------------- the translator on values

  datatype View = View(sent: bool, hasText: bool, text: string, order: seq<int>, calls: map<int, Call>, finish: string, log: Log)

  const BEGIN := View(false, false, "", [], map[], "stop", [])

  function Sent(v: View): View {
    if v.sent then v else v.(sent := true, log := Push(Push(v.log, Created), InProgress))
  }

  function Opened(v: View): View {
    if v.hasText then v else v.(hasText := true, log := Push(Push(v.log, ItemAdded(0, Message(""))), PartAdded))
  }

  function AddText(v: View, delta: string): View {
    var w := Opened(Sent(v));
    w.(text := w.text + delta, log := Push(w.log, TextDelta(delta)))
  }

  /** The output index of a call: one more than its place among the calls. */
  function PlaceOf(order: seq<int>, index: int): (p: nat)
    requires index in order
    ensures 1 <= p <= |order| && order[p - 1] == index
  {
    if order[|order| - 1] == index then |order| else PlaceOf(order[..|order| - 1], index)
  }

  function Named(calls: map<int, Call>, d: CallDelta): Call {
    if d.index in calls then Call(Or(d.id, calls[d.index].id), Or(d.name, calls[d.index].name), calls[d.index].arguments)
    else Call(d.id, d.name, "")
  }

  function ToolEntry(v: View, d: CallDelta): View {
    var call := Named(v.calls, d);
    v.(order := WithIndex(v.order, d.index), calls := v.calls[d.index := call],
       log := if d.index in v.order then v.log else Push(v.log, ItemAdded(|v.order| + 1, Function(call))))
  }

  function AddArguments(v: View, index: int, arguments: string): View
    requires index in v.order && index in v.calls
  {
    v.(calls := v.calls[index := v.calls[index].(arguments := v.calls[index].arguments + arguments)],
       log := Push(v.log, ArgsDelta(PlaceOf(v.order, index), arguments)))
  }

  function AddToolDelta(v: View, d: CallDelta): View {
    var w := ToolEntry(Sent(v), d);
    if d.arguments == "" then w else AddArguments(w, d.index, d.arguments)
  }

  function AddToolDeltas(v: View, ds: seq<CallDelta>): View {
    if ds == [] then v else AddToolDelta(AddToolDeltas(v, ds[..|ds| - 1]), ds[|ds| - 1])
  }

  function WithDelta(v: View, content: string, calls: seq<CallDelta>): View {
    AddToolDeltas(if content != "" then AddText(v, content) else v, calls)
  }

  function WithFinish(v: View, finish: string): View {
    if finish != "" then v.(finish := finish) else v
  }

  function Consumed(v: View, chunk: Chunk): View {
    if chunk.Choice? then WithFinish(WithDelta(v, chunk.content, chunk.calls), chunk.finish) else v
  }

  function ConsumedAll(v: View, chunks: seq<Chunk>): View {
    if chunks == [] then v else Consumed(ConsumedAll(v, chunks[..|chunks| - 1]), chunks[|chunks| - 1])
  }

  function MessageDone(v: View): seq<Event> {
    if v.hasText then [TextDone(v.text), PartDone(v.text), ItemDone(0, Message(v.text))] else []
  }

  function ToolsDone(calls: seq<Call>): seq<Event> {
    if calls == [] then []
    else ToolsDone(calls[..|calls| - 1])
         + [ArgsDone(|calls|, calls[|calls| - 1].arguments), ItemDone(|calls|, Function(calls[|calls| - 1]))]
  }

  function Output(v: View): seq<Item>
    requires Covers(v.order, v.calls)
  {
    (if v.hasText then [Message(v.text)] else []) + Functions(InOrder(v.calls, v.order))
  }

  function Finished(v: View): Log
    requires Covers(v.order, v.calls)
  {
    Push(PushAll(PushAll(v.log, MessageDone(v)), ToolsDone(InOrder(v.calls, v.order))),
         ResponseCompleted(Answer(FinishState(v.finish), Output(v))))
  }

  function Failed(v: View, message: string): Log
    requires Covers(v.order, v.calls)
  {
    Push(PushAll(PushAll(v.log, MessageDone(v)), ToolsDone(InOrder(v.calls, v.order))), ResponseFailed(Output(v), message))
  }

  // ---------------------------------------------------------------- what a log carries

  function TextOf(log: Log): string {
    if log == [] then ""
    else TextOf(log[..|log| - 1]) + if log[|log| - 1].event.TextDelta? then log[|log| - 1].event.text else ""
  }

  function ArgsOf(log: Log, place: nat): string {
    if log == [] then ""
    else
      var e := log[|log| - 1].event;
      ArgsOf(log[..|log| - 1], place) + if e.ArgsDelta? && e.place == place then e.arguments else ""
  }

  lemma Pushed(log: Log, e: Event)
    ensures TextOf(Push(log, e)) == TextOf(log) + if e.TextDelta? then e.text else ""
  {
    assert Push(log, e)[..|log|] == log;
  }

  lemma PushedArgs(log: Log, e: Event, place: nat)
    ensures ArgsOf(Push(log, e), place) == ArgsOf(log, place) + if e.ArgsDelta? && e.place == place then e.arguments else ""
  {
    assert Push(log, e)[..|log|] == log;
  }

  /** Sequence numbers count from 1. */
  ghost predicate Numbered(log: Log) {
    forall i | 0 <= i < |log| :: log[i].number == i + 1
  }

  ghost predicate Carried(v: View) {
    forall p: nat :: ArgsOf(v.log, p) == if 1 <= p <= |v.order| then ArgumentsOf(v.calls, v.order[p - 1]) else ""
  }

  ghost predicate Fits(v: View) {
    && Covers(v.order, v.calls) && TextOf(v.log) == v.text && Carried(v) && Numbered(v.log)
    && (v.hasText <==> v.text != "")
  }

  /** An event that is no piece of text or arguments, with the calls as they were. */
  lemma Plain(v: View, e: Event)
    requires TextOf(v.log) == v.text && Carried(v) && Numbered(v.log) && !e.TextDelta? && !e.ArgsDelta?
    ensures var w := v.(log := Push(v.log, e)); TextOf(w.log) == w.text && Carried(w) && Numbered(w.log)
  {
    Pushed(v.log, e);
    forall p: nat ensures ArgsOf(Push(v.log, e), p) == ArgsOf(v.log, p) {
      PushedArgs(v.log, e, p);
    }
  }

  lemma SentFits(v: View)
    requires Fits(v)
    ensures Fits(Sent(v))
  {
    if !v.sent {
      Plain(v, Created);
      Plain(v.(log := Push(v.log, Created)), InProgress);
    }
  }

  /** The log's part of Fits. */
  ghost predicate LogFits(v: View) {
    TextOf(v.log) == v.text && Carried(v) && Numbered(v.log)
  }

  lemma OpenedFits(v: View)
    requires LogFits(v)
    ensures LogFits(Opened(v))
  {
    if !v.hasText {
      Plain(v, ItemAdded(0, Message("")));
      Plain(v.(log := Push(v.log, ItemAdded(0, Message("")))), PartAdded);
    }
  }

  lemma TextFits(w: View, delta: string)
    requires LogFits(w)
    ensures LogFits(w.(text := w.text + delta, log := Push(w.log, TextDelta(delta))))
  {
    Pushed(w.log, TextDelta(delta));
    forall p: nat ensures ArgsOf(Push(w.log, TextDelta(delta)), p) == ArgsOf(w.log, p) {
      PushedArgs(w.log, TextDelta(delta), p);
    }
  }

  lemma AddTextFits(v: View, delta: string)
    requires Fits(v) && delta != ""
    ensures Fits(AddText(v, delta))
  {
    SentFits(v);
    OpenedFits(Sent(v));
    TextFits(Opened(Sent(v)), delta);
  }

  lemma NamedArguments(calls: map<int, Call>, d: CallDelta, k: int)
    ensures ArgumentsOf(calls[d.index := Named(calls, d)], k) == ArgumentsOf(calls, k)
  {
  }

  lemma EntryCovers(order: seq<int>, calls: map<int, Call>, d: CallDelta, call: Call)
    requires Covers(order, calls)
    ensures Covers(WithIndex(order, d.index), calls[d.index := call])
  {
    IndexCovers(order, calls, d);
  }

  lemma EntryCarries(v: View, d: CallDelta)
    requires Covers(v.order, v.calls) && Carried(v)
    ensures Carried(ToolEntry(v, d))
  {
    var w := ToolEntry(v, d);
    forall p: nat ensures ArgsOf(w.log, p) == if 1 <= p <= |w.order| then ArgumentsOf(w.calls, w.order[p - 1]) else "" {
      if d.index !in v.order {
        PushedArgs(v.log, ItemAdded(|v.order| + 1, Function(Named(v.calls, d))), p);
      }
      if 1 <= p <= |w.order| {
        NamedArguments(v.calls, d, w.order[p - 1]);
      }
    }
  }

  lemma EntryFits(v: View, d: CallDelta)
    requires Fits(v)
    ensures Fits(ToolEntry(v, d)) && d.index in ToolEntry(v, d).order
  {
    EntryCovers(v.order, v.calls, d, Named(v.calls, d));
    EntryCarries(v, d);
    Pushed(v.log, ItemAdded(|v.order| + 1, Function(Named(v.calls, d))));
  }

  lemma OnlyPlace(order: seq<int>, index: int, p: nat)
    requires index in order && 1 <= p <= |order| && Distinct(order)
    ensures p == PlaceOf(order, index) <==> order[p - 1] == index
  {
  }

  lemma ArgumentsCarry(v: View, index: int, arguments: string)
    requires Covers(v.order, v.calls) && Carried(v) && index in v.order
    ensures Carried(AddArguments(v, index, arguments))
  {
    var w := AddArguments(v, index, arguments);
    forall p: nat ensures ArgsOf(w.log, p) == if 1 <= p <= |w.order| then ArgumentsOf(w.calls, w.order[p - 1]) else "" {
      PushedArgs(v.log, ArgsDelta(PlaceOf(v.order, index), arguments), p);
      if 1 <= p <= |v.order| {
        OnlyPlace(v.order, index, p);
      }
    }
  }

  lemma ArgumentsFit(v: View, index: int, arguments: string)
    requires Fits(v) && index in v.order
    ensures Fits(AddArguments(v, index, arguments))
  {
    ArgumentsCarry(v, index, arguments);
    Pushed(v.log, ArgsDelta(PlaceOf(v.order, index), arguments));
  }

  lemma MergeInTwo(calls: map<int, Call>, d: CallDelta)
    ensures var named := calls[d.index := Named(calls, d)];
      MergeCall(calls, d) == if d.arguments == "" then named
                             else named[d.index := named[d.index].(arguments := named[d.index].arguments + d.arguments)]
  {
    var call := if d.index in calls then calls[d.index] else Call("", "", "");
    assert call.arguments + "" == call.arguments;
  }

  lemma AddToolDeltaFits(v: View, d: CallDelta)
    requires Fits(v)
    ensures var w := AddToolDelta(v, d);
      Fits(w) && w.text == v.text && w.calls == MergeCall(v.calls, d) && w.order == WithIndex(v.order, d.index) && w.finish == v.finish
  {
    SentFits(v);
    EntryFits(Sent(v), d);
    MergeInTwo(v.calls, d);
    if d.arguments != "" {
      ArgumentsFit(ToolEntry(Sent(v), d), d.index, d.arguments);
    }
  }

  lemma {:induction false} AddToolDeltasFit(v: View, ds: seq<CallDelta>)
    requires Fits(v)
    ensures var w := AddToolDeltas(v, ds);
      Fits(w) && w.text == v.text && w.calls == MergeCalls(v.calls, ds) && w.order == WithIndexes(v.order, ds) && w.finish == v.finish
  {
    if ds != [] {
      AddToolDeltasFit(v, ds[..|ds| - 1]);
      AddToolDeltaFits(AddToolDeltas(v, ds[..|ds| - 1]), ds[|ds| - 1]);
    }
  }

  lemma ConsumedFits(v: View, content: string, calls: seq<CallDelta>)
    requires Fits(v)
    ensures var w := WithDelta(v, content, calls);
      && Fits(w) && w.text == v.text + content && w.calls == MergeCalls(v.calls, calls)
      && w.order == WithIndexes(v.order, calls) && w.finish == v.finish
  {
    if content != "" {
      AddTextFits(v, content);
      AddToolDeltasFit(AddText(v, content), calls);
    } else {
      assert v.text + content == v.text;
      AddToolDeltasFit(v, calls);
    }
  }

  /** After any chunks the translator holds what they add up to, and its log carries the same text and arguments,
      piece by piece, under consecutive numbers. */
  lemma {:induction false} StreamFits(chunks: seq<Chunk>)
    ensures var v := ConsumedAll(Sent(BEGIN), chunks);
      && Fits(v) && v.text == Content(chunks) && v.calls == Calls(chunks) && v.order == Order(chunks)
      && v.finish == StreamFinish(chunks)
  {
    if chunks == [] {
      SentFits(BEGIN);
    } else {
      var rest, last := chunks[..|chunks| - 1], chunks[|chunks| - 1];
      StreamFits(rest);
      if last.Choice? {
        ConsumedFits(ConsumedAll(Sent(BEGIN), rest), last.content, last.calls);
      } else {
        assert Content(rest) + "" == Content(rest);
      }
    }
  }

  lemma {:induction false} PushAllNumbers(log: Log, es: seq<Event>)
    requires Numbered(log)
    ensures Numbered(PushAll(log, es)) && log <= PushAll(log, es)
  {
    if es != [] {
      PushAllNumbers(log, es[..|es| - 1]);
    }
  }

  /** The finished stream's last event is the streamed answer, after a log numbered from 1. */
  lemma FinishReportsTheAnswer(chunks: seq<Chunk>)
    ensures var v := ConsumedAll(Sent(BEGIN), chunks);
      && Fits(v) && Numbered(Finished(v)) && v.log <= Finished(v)
      && Finished(v)[|Finished(v)| - 1].event == ResponseCompleted(Streamed(chunks))
  {
    StreamFits(chunks);
    var v := ConsumedAll(Sent(BEGIN), chunks);
    PushAllNumbers(v.log, MessageDone(v));
    PushAllNumbers(PushAll(v.log, MessageDone(v)), ToolsDone(InOrder(v.calls, v.order)));
    OrderCovers(chunks);
  }

  /** Streaming agrees with buffering: the stream ends with exactly what the buffered completion translates to, if and
      only if something was said or called, the calls began in an order that matches index order, and the last choice
      gives the finish reason or the kept one means completion. */
  lemma StreamAgreesWithBuffer(chunks: seq<Chunk>)
    requires LastFinish(chunks).Some?
    ensures var v := ConsumedAll(Sent(BEGIN), chunks);
      Fits(v) && (Finished(v)[|Finished(v)| - 1].event == ResponseCompleted(AnswerOf(Collapsed(chunks).value))
                  <==> && NonEmpty(chunks) && CallsMatch(chunks)
                       && (LastFinish(chunks).value != "" || FinishState(StreamFinish(chunks)).Completed?))
  {
    FinishReportsTheAnswer(chunks);
    OutputsAgreeExactly(chunks);
    StatusesAgreeExactly(chunks);
  }

  /** An item's output index is its position in the final output exactly when there is a message before the calls. */
  lemma PlacesMatchWithText(v: View, i: nat)
    requires Fits(v) && i < |v.order|
    ensures Output(v)[if v.hasText then i + 1 else i] == Function(v.calls[v.order[i]])
    ensures (if v.hasText then i + 1 else i) == PlaceOf(v.order, v.order[i]) <==> v.text != ""
  {
    OnlyPlace(v.order, v.order[i], i + 1);
  }
}
