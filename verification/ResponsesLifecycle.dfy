/**
 What a client of a Responses stream may rely on, event by event (smart-router/src/smart_router/responses.py:437-767): the
 answer is announced before anything else, every item is added once and before its pieces, every ending event repeats
 exactly what the pieces before it carried, and the last event lists exactly the items that were done.
 */
module ResponsesLifecycle {
  import opened Collections
  import opened ChatStream
  import opened ResponsesStream
  import opened ResponsesEvents

  /** How far the message item has come, and the text so far. */
  datatype Message = Absent | Added | Speaking(text: string) | Spoken(text: string) | Parted(text: string) | Said(text: string)

  /** How far a call item has come: its arguments so far, or the whole call. */
  datatype Tool = Filling(arguments: string) | Filled(arguments: string) | Asked(call: Call)

  /** What a strict client has seen: the call items are at the places from 1 on. */
  datatype Client =
    | Fresh | Announced
    | Live(message: Message, tools: seq<Tool>)
    | Over(output: seq<Item>)
    | Broken

  predicate AllDone(message: Message, tools: seq<Tool>) {
    (message.Absent? || message.Said?) && forall i | 0 <= i < |tools| :: tools[i].Asked?
  }

  function DoneCalls(tools: seq<Tool>): (items: seq<Item>)
    ensures |items| == |tools| && forall i | 0 <= i < |tools| && tools[i].Asked? :: items[i] == Function(tools[i].call)
  {
    if tools == [] then []
    else
      var last := tools[|tools| - 1];
      DoneCalls(tools[..|tools| - 1]) + [Function(if last.Asked? then last.call else Call("", "", last.arguments))]
  }

  function DoneItems(message: Message, tools: seq<Tool>): seq<Item> {
    (if message.Said? then [ResponsesStream.Message(message.text)] else []) + DoneCalls(tools)
  }

  function ToolEvent(c: Client, p: nat, before: Tool, after: Tool): Client {
    if c.Live? && 1 <= p <= |c.tools| && c.tools[p - 1] == before then c.(tools := c.tools[p - 1 := after]) else Broken
  }

  /** One event more; any event out of turn, or that does not repeat what came before, breaks the stream. */
  function Next(c: Client, e: Event): Client {
    match e
    case Created => if c.Fresh? then Announced else Broken
    case InProgress => if c.Announced? then Live(Absent, []) else Broken
    case ItemAdded(p, Message(text)) => if c.Live? && p == 0 && c.message.Absent? && text == "" then c.(message := Added) else Broken
    case ItemAdded(p, Function(call)) =>
      if c.Live? && p == |c.tools| + 1 && call.arguments == "" then c.(tools := c.tools + [Filling("")]) else Broken
    case PartAdded => if c.Live? && c.message.Added? then c.(message := Speaking("")) else Broken
    case TextDelta(text) => if c.Live? && c.message.Speaking? then c.(message := Speaking(c.message.text + text)) else Broken
    case ArgsDelta(p, arguments) =>
      if c.Live? && 1 <= p <= |c.tools| && c.tools[p - 1].Filling?
      then c.(tools := c.tools[p - 1 := Filling(c.tools[p - 1].arguments + arguments)]) else Broken
    case TextDone(text) => if c.Live? && c.message == Speaking(text) then c.(message := Spoken(text)) else Broken
    case PartDone(text) => if c.Live? && c.message == Spoken(text) then c.(message := Parted(text)) else Broken
    case ArgsDone(p, arguments) => ToolEvent(c, p, Filling(arguments), Filled(arguments))
    case ItemDone(p, Message(text)) => if c.Live? && p == 0 && c.message == Parted(text) then c.(message := Said(text)) else Broken
    case ItemDone(p, Function(call)) => ToolEvent(c, p, Filled(call.arguments), Asked(call))
    case ResponseCompleted(answer) => Ends(c, answer.output)
    case ResponseFailed(output, _) => Ends(c, output)
  }

  function Ends(c: Client, output: seq<Item>): Client {
    if c.Live? && AllDone(c.message, c.tools) && output == DoneItems(c.message, c.tools) then Over(output) else Broken
  }

  function Scan(log: Log): Client {
    if log == [] then Fresh else Next(Scan(log[..|log| - 1]), log[|log| - 1].event)
  }

  lemma ScanPush(log: Log, e: Event)
    ensures Scan(Push(log, e)) == Next(Scan(log), e)
  {
    assert Push(log, e)[..|log|] == log;
  }

  lemma Advances(log: Log, c: Client, e: Event, after: Client)
    requires Scan(log) == c && Next(c, e) == after
    ensures Scan(Push(log, e)) == after
  {
    ScanPush(log, e);
  }

  lemma MessageOpens(tools: seq<Tool>)
    ensures Next(Live(Absent, tools), ItemAdded(0, ResponsesStream.Message(""))) == Live(Added, tools)
    ensures Next(Live(Added, tools), PartAdded) == Live(Speaking(""), tools)
  {
  }

  lemma MessageCloses(tools: seq<Tool>, text: string)
    ensures Next(Live(Speaking(text), tools), TextDone(text)) == Live(Spoken(text), tools)
    ensures Next(Live(Spoken(text), tools), PartDone(text)) == Live(Parted(text), tools)
    ensures Next(Live(Parted(text), tools), ItemDone(0, ResponsesStream.Message(text))) == Live(Said(text), tools)
  {
  }

  lemma ToolCloses(message: Message, tools: seq<Tool>, n: nat, call: Call)
    requires n < |tools| && tools[n] == Filling(call.arguments)
    ensures var filled := tools[n := Filled(call.arguments)];
      && Next(Live(message, tools), ArgsDone(n + 1, call.arguments)) == Live(message, filled)
      && Next(Live(message, filled), ItemDone(n + 1, Function(call))) == Live(message, filled[n := Asked(call)])
  {
  }

  // ---------------------------------------------------------------- while it runs

  function MessageOf(v: View): Message {
    if v.hasText then Speaking(v.text) else Absent
  }

  function ToolsOf(order: seq<int>, calls: map<int, Call>): seq<Tool> {
    seq(|order|, i requires 0 <= i < |order| => Filling(ArgumentsOf(calls, order[i])))
  }

  /** The client has the text and the arguments that the translator holds, item by item. */
  ghost predicate Follows(v: View) {
    Scan(v.log) == Live(MessageOf(v), ToolsOf(v.order, v.calls))
  }

  lemma BeginFollows()
    ensures Follows(Sent(BEGIN))
  {
    ScanPush([], Created);
    ScanPush(Push([], Created), InProgress);
  }

  lemma OpenedIsFollowed(v: View)
    requires Follows(v) && (!v.hasText ==> v.text == "")
    ensures Scan(Opened(v).log) == Live(Speaking(v.text), ToolsOf(v.order, v.calls))
  {
    if !v.hasText {
      var tools := ToolsOf(v.order, v.calls);
      MessageOpens(tools);
      Advances(v.log, Live(Absent, tools), ItemAdded(0, ResponsesStream.Message("")), Live(Added, tools));
      Advances(Push(v.log, ItemAdded(0, ResponsesStream.Message(""))), Live(Added, tools), PartAdded, Live(Speaking(""), tools));
    }
  }

  lemma TextFollows(v: View, delta: string)
    requires Follows(v) && v.sent && (!v.hasText ==> v.text == "")
    ensures Follows(AddText(v, delta))
  {
    OpenedIsFollowed(v);
    var tools := ToolsOf(v.order, v.calls);
    Advances(Opened(v).log, Live(Speaking(v.text), tools), TextDelta(delta), Live(Speaking(v.text + delta), tools));
  }

  lemma EntryFollows(v: View, d: CallDelta)
    requires Follows(v) && Covers(v.order, v.calls)
    ensures Follows(ToolEntry(v, d))
  {
    var w := ToolEntry(v, d);
    forall i | 0 <= i < |v.order| ensures ToolsOf(w.order, w.calls)[i] == ToolsOf(v.order, v.calls)[i] {
      NamedArguments(v.calls, d, v.order[i]);
    }
    if d.index in v.order {
      assert ToolsOf(w.order, w.calls) == ToolsOf(v.order, v.calls);
    } else {
      ScanPush(v.log, ItemAdded(|v.order| + 1, Function(Named(v.calls, d))));
      assert ToolsOf(w.order, w.calls) == ToolsOf(v.order, v.calls) + [Filling("")];
    }
  }

  lemma PieceGrows(message: Message, tools: seq<Tool>, p: nat, arguments: string)
    requires 1 <= p <= |tools| && tools[p - 1].Filling?
    ensures Next(Live(message, tools), ArgsDelta(p, arguments))
      == Live(message, tools[p - 1 := Filling(tools[p - 1].arguments + arguments)])
  {
  }

  lemma ToolsGrow(order: seq<int>, calls: map<int, Call>, index: int, arguments: string)
    requires Covers(order, calls) && index in order
    ensures var p, before := PlaceOf(order, index), ToolsOf(order, calls);
      && before[p - 1] == Filling(calls[index].arguments)
      && ToolsOf(order, calls[index := calls[index].(arguments := calls[index].arguments + arguments)])
         == before[p - 1 := Filling(before[p - 1].arguments + arguments)]
  {
    forall i | 0 <= i < |order| ensures i + 1 == PlaceOf(order, index) <==> order[i] == index {
      OnlyPlace(order, index, i + 1);
    }
  }

  lemma ArgumentsFollow(v: View, index: int, arguments: string)
    requires Follows(v) && Covers(v.order, v.calls) && index in v.order
    ensures Follows(AddArguments(v, index, arguments))
  {
    var p, tools := PlaceOf(v.order, index), ToolsOf(v.order, v.calls);
    ToolsGrow(v.order, v.calls, index, arguments);
    PieceGrows(MessageOf(v), tools, p, arguments);
    ScanPush(v.log, ArgsDelta(p, arguments));
  }

  lemma ToolDeltaFollows(v: View, d: CallDelta)
    requires Follows(v) && Fits(v) && v.sent
    ensures Follows(AddToolDelta(v, d)) && AddToolDelta(v, d).sent
  {
    EntryFollows(v, d);
    EntryFits(v, d);
    if d.arguments != "" {
      ArgumentsFollow(ToolEntry(v, d), d.index, d.arguments);
    }
  }

  lemma {:induction false} ToolDeltasFollow(v: View, ds: seq<CallDelta>)
    requires Follows(v) && Fits(v) && v.sent
    ensures Follows(AddToolDeltas(v, ds)) && AddToolDeltas(v, ds).sent
  {
    if ds != [] {
      ToolDeltasFollow(v, ds[..|ds| - 1]);
      AddToolDeltasFit(v, ds[..|ds| - 1]);
      ToolDeltaFollows(AddToolDeltas(v, ds[..|ds| - 1]), ds[|ds| - 1]);
    }
  }

  lemma DeltaFollows(v: View, content: string, calls: seq<CallDelta>)
    requires Follows(v) && Fits(v) && v.sent
    ensures Follows(WithDelta(v, content, calls)) && WithDelta(v, content, calls).sent
  {
    if content != "" {
      TextFollows(v, content);
      AddTextFits(v, content);
      ToolDeltasFollow(AddText(v, content), calls);
    } else {
      ToolDeltasFollow(v, calls);
    }
  }

  /** After any chunks the client follows: what it has pieced together is what the chunks add up to. */
  lemma {:induction false} StreamIsFollowed(chunks: seq<Chunk>)
    ensures var v := ConsumedAll(Sent(BEGIN), chunks); Follows(v) && v.sent
  {
    if chunks == [] {
      BeginFollows();
    } else {
      var rest, last := chunks[..|chunks| - 1], chunks[|chunks| - 1];
      StreamIsFollowed(rest);
      StreamFits(rest);
      if last.Choice? {
        DeltaFollows(ConsumedAll(Sent(BEGIN), rest), last.content, last.calls);
      }
    }
  }

  // ---------------------------------------------------------------- the ending

  lemma MessageEnds(v: View)
    requires Follows(v)
    ensures Scan(PushAll(v.log, MessageDone(v))) == Live(if v.hasText then Said(v.text) else Absent, ToolsOf(v.order, v.calls))
  {
    if v.hasText {
      var tools, text, item := ToolsOf(v.order, v.calls), v.text, ItemDone(0, ResponsesStream.Message(v.text));
      MessageCloses(tools, text);
      Advances(v.log, Live(Speaking(text), tools), TextDone(text), Live(Spoken(text), tools));
      Advances(Push(v.log, TextDone(text)), Live(Spoken(text), tools), PartDone(text), Live(Parted(text), tools));
      Advances(Push(Push(v.log, TextDone(text)), PartDone(text)), Live(Parted(text), tools), item, Live(Said(text), tools));
      PushThree(v.log, TextDone(text), PartDone(text), item);
    }
  }

  /** The first `n` calls are done, the others are still filled. */
  ghost predicate DoneUpTo(tools: seq<Tool>, calls: seq<Call>, n: nat) {
    && |tools| == |calls| && n <= |calls|
    && forall i | 0 <= i < |calls| :: tools[i] == if i < n then Asked(calls[i]) else Filling(calls[i].arguments)
  }

  lemma OneMoreDone(log: Log, message: Message, tools: seq<Tool>, calls: seq<Call>, n: nat) returns (tools': seq<Tool>)
    requires Scan(log) == Live(message, tools) && DoneUpTo(tools, calls, n) && n < |calls|
    ensures Scan(Push(Push(log, ArgsDone(n + 1, calls[n].arguments)), ItemDone(n + 1, Function(calls[n])))) == Live(message, tools')
    ensures DoneUpTo(tools', calls, n + 1)
  {
    var filled := tools[n := Filled(calls[n].arguments)];
    tools' := filled[n := Asked(calls[n])];
    ToolCloses(message, tools, n, calls[n]);
    Advances(log, Live(message, tools), ArgsDone(n + 1, calls[n].arguments), Live(message, filled));
    Advances(Push(log, ArgsDone(n + 1, calls[n].arguments)), Live(message, filled), ItemDone(n + 1, Function(calls[n])),
             Live(message, tools'));
  }

  lemma ToolsDoneNext(calls: seq<Call>, n: nat)
    requires n < |calls|
    ensures ToolsDone(calls[..n + 1])
      == ToolsDone(calls[..n]) + [ArgsDone(n + 1, calls[n].arguments), ItemDone(n + 1, Function(calls[n]))]
  {
    assert calls[..n + 1][..n] == calls[..n];
  }

  lemma {:induction false} ToolsEnd(log: Log, message: Message, tools: seq<Tool>, calls: seq<Call>, n: nat) returns (tools': seq<Tool>)
    requires Scan(log) == Live(message, tools) && DoneUpTo(tools, calls, 0) && n <= |calls|
    ensures Scan(PushAll(log, ToolsDone(calls[..n]))) == Live(message, tools') && DoneUpTo(tools', calls, n)
  {
    if n == 0 {
      tools' := tools;
    } else {
      var before := ToolsEnd(log, message, tools, calls, n - 1);
      var es := ToolsDone(calls[..n - 1]);
      tools' := OneMoreDone(PushAll(log, es), message, before, calls, n - 1);
      ToolsDoneNext(calls, n - 1);
      PushTwo(log, es, ArgsDone(n, calls[n - 1].arguments), ItemDone(n, Function(calls[n - 1])));
    }
  }

  lemma DoneIsOutput(v: View, tools: seq<Tool>)
    requires Covers(v.order, v.calls) && DoneUpTo(tools, InOrder(v.calls, v.order), |v.order|)
    ensures var message := if v.hasText then Said(v.text) else Absent;
      AllDone(message, tools) && DoneItems(message, tools) == Output(v)
  {
    assert DoneCalls(tools) == Functions(InOrder(v.calls, v.order));
  }

  lemma AllEnds(v: View) returns (tools: seq<Tool>)
    requires Follows(v) && Covers(v.order, v.calls)
    ensures var log := PushAll(PushAll(v.log, MessageDone(v)), ToolsDone(InOrder(v.calls, v.order)));
      Scan(log) == Live(if v.hasText then Said(v.text) else Absent, tools) && DoneUpTo(tools, InOrder(v.calls, v.order), |v.order|)
  {
    MessageEnds(v);
    var calls := InOrder(v.calls, v.order);
    tools := ToolsEnd(PushAll(v.log, MessageDone(v)), if v.hasText then Said(v.text) else Absent, ToolsOf(v.order, v.calls), calls, |calls|);
    assert calls[..|calls|] == calls;
  }

  lemma WholeEnding(log: Log, message: Message, tools: seq<Tool>, status: Status, output: seq<Item>, text: string)
    requires Scan(log) == Live(message, tools) && AllDone(message, tools) && output == DoneItems(message, tools)
    ensures Scan(Push(log, ResponseCompleted(Answer(status, output)))) == Over(output)
    ensures Scan(Push(log, ResponseFailed(output, text))) == Over(output)
  {
    ScanPush(log, ResponseCompleted(Answer(status, output)));
    ScanPush(log, ResponseFailed(output, text));
  }

  lemma ViewIsWhole(v: View, message: string)
    requires Follows(v) && Covers(v.order, v.calls)
    ensures Scan(Finished(v)) == Over(Output(v)) && Scan(Failed(v, message)) == Over(Output(v))
  {
    var tools := AllEnds(v);
    DoneIsOutput(v, tools);
    var log := PushAll(PushAll(v.log, MessageDone(v)), ToolsDone(InOrder(v.calls, v.order)));
    WholeEnding(log, if v.hasText then Said(v.text) else Absent, tools, FinishState(v.finish), Output(v), message);
  }

  lemma OutputIsStreamed(chunks: seq<Chunk>, v: View)
    requires Fits(v) && v.text == Content(chunks) && v.calls == Calls(chunks) && v.order == Order(chunks)
    ensures Output(v) == Streamed(chunks).output
  {
    OrderCovers(chunks);
  }

  /** Every finished and every failed stream is whole: nothing is out of turn, every ending event repeats the pieces before
      it, and the last event lists exactly the items that were done. */
  lemma StreamsAreWhole(chunks: seq<Chunk>, message: string)
    ensures var v := ConsumedAll(Sent(BEGIN), chunks);
      && Fits(v) && Scan(Finished(v)) == Over(Streamed(chunks).output) && Scan(Failed(v, message)) == Over(Streamed(chunks).output)
  {
    StreamIsFollowed(chunks);
    StreamFits(chunks);
    var v := ConsumedAll(Sent(BEGIN), chunks);
    ViewIsWhole(v, message);
    OutputIsStreamed(chunks, v);
  }

  // ---------------------------------------------------------------- what being whole means, for any log

  function SpeechOf(message: Message): string {
    match message
    case Absent => ""
    case Added => ""
    case Speaking(text) => text
    case Spoken(text) => text
    case Parted(text) => text
    case Said(text) => text
  }

  function InputOf(tool: Tool): string {
    match tool
    case Filling(arguments) => arguments
    case Filled(arguments) => arguments
    case Asked(call) => call.arguments
  }

  function InputAt(tools: seq<Tool>, p: nat): string {
    if 1 <= p <= |tools| then InputOf(tools[p - 1]) else ""
  }

  predicate AddsAt(e: Event, p: nat) {
    e.ItemAdded? && e.place == p
  }

  predicate EndsAt(e: Event, p: nat) {
    e.ItemDone? && e.place == p
  }

  /** How often an item was added at this place, and how often it was done. */
  function TimesAdded(log: Log, p: nat): nat {
    if log == [] then 0 else TimesAdded(log[..|log| - 1], p) + if AddsAt(log[|log| - 1].event, p) then 1 else 0
  }

  function TimesDone(log: Log, p: nat): nat {
    if log == [] then 0 else TimesDone(log[..|log| - 1], p) + if EndsAt(log[|log| - 1].event, p) then 1 else 0
  }

  predicate IsThere(message: Message, tools: seq<Tool>, p: nat) {
    if p == 0 then !message.Absent? else p <= |tools|
  }

  predicate IsDone(message: Message, tools: seq<Tool>, p: nat) {
    if p == 0 then message.Said? else p <= |tools| && tools[p - 1].Asked?
  }

  /** A live client's pieces and items are what the log says of this place. */
  ghost predicate Tells(message: Message, tools: seq<Tool>, text: string, arguments: string, added: nat, done: nat, p: nat) {
    && SpeechOf(message) == text && InputAt(tools, p) == arguments
    && added == (if IsThere(message, tools, p) then 1 else 0) && done == (if IsDone(message, tools, p) then 1 else 0)
  }

  lemma TellsNext(c: Client, e: Event, text: string, arguments: string, added: nat, done: nat, p: nat)
    requires c.Live? && Next(c, e).Live? && Tells(c.message, c.tools, text, arguments, added, done, p)
    ensures var after := Next(c, e);
      Tells(after.message, after.tools, text + if e.TextDelta? then e.text else "",
            arguments + if e.ArgsDelta? && e.place == p then e.arguments else "",
            added + (if AddsAt(e, p) then 1 else 0), done + (if EndsAt(e, p) then 1 else 0), p)
  {
    assert text + "" == text && arguments + "" == arguments;
  }

  lemma {:induction false} EarlyLogs(log: Log)
    ensures Scan(log).Fresh? ==> log == []
    ensures Scan(log).Announced? ==> |log| == 1 && log[0].event.Created?
  {
    if log != [] {
      EarlyLogs(log[..|log| - 1]);
    }
  }

  lemma OneEventTells(log: Log, e: Emitted, p: nat)
    requires e.event.Created? || e.event.InProgress?
    ensures TextOf(log + [e]) == TextOf(log) && ArgsOf(log + [e], p) == ArgsOf(log, p)
    ensures TimesAdded(log + [e], p) == TimesAdded(log, p) && TimesDone(log + [e], p) == TimesDone(log, p)
  {
    assert (log + [e])[..|log|] == log;
    assert TextOf(log) + "" == TextOf(log) && ArgsOf(log, p) + "" == ArgsOf(log, p);
  }

  lemma TwoEventsTell(log: Log, p: nat)
    requires |log| == 2 && log[0].event.Created? && log[1].event.InProgress?
    ensures TextOf(log) == "" && ArgsOf(log, p) == "" && TimesAdded(log, p) == 0 && TimesDone(log, p) == 0
  {
    assert log == [log[0]] + [log[1]] && [] + [log[0]] == [log[0]];
    OneEventTells([log[0]], log[1], p);
    OneEventTells([], log[0], p);
  }

  lemma {:induction false} LiveTells(log: Log, p: nat)
    requires Scan(log).Live?
    ensures Tells(Scan(log).message, Scan(log).tools, TextOf(log), ArgsOf(log, p), TimesAdded(log, p), TimesDone(log, p), p)
  {
    var rest, e := log[..|log| - 1], log[|log| - 1].event;
    if Scan(rest).Live? {
      LiveTells(rest, p);
      TellsNext(Scan(rest), e, TextOf(rest), ArgsOf(rest, p), TimesAdded(rest, p), TimesDone(rest, p), p);
    } else {
      EarlyLogs(rest);
      TwoEventsTell(log, p);
    }
  }

  lemma OnlyEndsAreOver(c: Client, e: Event)
    requires Next(c, e).Over?
    ensures (e.ResponseCompleted? || e.ResponseFailed?) && c.Live? && AllDone(c.message, c.tools)
    ensures Next(c, e).output == DoneItems(c.message, c.tools)
  {
    match e
    case ResponseCompleted(answer) =>
    case ResponseFailed(output, _) =>
    case ItemAdded(p, Message(text)) =>
    case ItemAdded(p, Function(call)) =>
    case ItemDone(p, Message(text)) =>
    case ItemDone(p, Function(call)) =>
    case _ =>
  }

  lemma EndTells(log: Log, p: nat)
    requires log != [] && (log[|log| - 1].event.ResponseCompleted? || log[|log| - 1].event.ResponseFailed?)
    ensures var rest := log[..|log| - 1];
      && TextOf(log) == TextOf(rest) && ArgsOf(log, p) == ArgsOf(rest, p)
      && TimesAdded(log, p) == TimesAdded(rest, p) && TimesDone(log, p) == TimesDone(rest, p)
  {
    var rest := log[..|log| - 1];
    assert TextOf(rest) + "" == TextOf(rest) && ArgsOf(rest, p) + "" == ArgsOf(rest, p);
  }

  /** The output lists the message, if one was added, with this text; a call at place `p` exactly if one was added there, with
      these arguments. */
  ghost predicate Reports(output: seq<Item>, said: nat, added: nat, text: string, arguments: string, p: nat) {
    && said <= 1 && said <= |output|
    && (said == 1 ==> output[0] == ResponsesStream.Message(text)) && (said == 0 ==> text == "")
    && (1 <= p ==> (added == 1 <==> p <= |output| - said))
    && (1 <= p <= |output| - said ==> output[said + p - 1].Function? && output[said + p - 1].call.arguments == arguments)
  }

  lemma DoneReports(message: Message, tools: seq<Tool>, text: string, arguments: string, arguments0: string, added: nat,
                    done: nat, said: nat, done0: nat, p: nat)
    requires AllDone(message, tools) && Tells(message, tools, text, arguments, added, done, p)
    requires Tells(message, tools, text, arguments0, said, done0, 0)
    ensures added == done <= 1 && Reports(DoneItems(message, tools), said, added, text, arguments, p)
  {
    var calls := DoneCalls(tools);
    assert message.Said? ==> DoneItems(message, tools) == [ResponsesStream.Message(text)] + calls;
    assert !message.Said? ==> DoneItems(message, tools) == calls;
  }

  /** In any whole stream: at most one item per place, each added once and done once, at the places up to the number of
      calls; the last event lists the message with all text pieces joined, and then every call with its own pieces. */
  lemma WholeMeans(log: Log, p: nat)
    requires Scan(log).Over?
    ensures TimesAdded(log, p) == TimesDone(log, p) <= 1
    ensures Reports(Scan(log).output, TimesAdded(log, 0), TimesAdded(log, p), TextOf(log), ArgsOf(log, p), p)
  {
    var rest, e := log[..|log| - 1], log[|log| - 1].event;
    OnlyEndsAreOver(Scan(rest), e);
    LiveTells(rest, p);
    LiveTells(rest, 0);
    EndTells(log, p);
    EndTells(log, 0);
    DoneReports(Scan(rest).message, Scan(rest).tools, TextOf(rest), ArgsOf(rest, p), ArgsOf(rest, 0), TimesAdded(rest, p),
                TimesDone(rest, p), TimesAdded(rest, 0), TimesDone(rest, 0), p);
  }
}
