/**
 Chat chunks as a Messages answer, streamed or buffered (smart-router/src/smart_router/anthropic.py:292-340 and
 345-552): what a client puts together from the event log, and when it equals the buffered translation.

 A call id that is generated because none was sent is the empty string here. `read` stands for json.loads.
 */
module AnthropicAgreement {
  import opened Collections
  import opened ChatStream
  import opened Text
  import R = ResponsesStream
  import opened AnthropicStream
  import opened AnthropicTranslator

  datatype Reading = NotJson | AnObject | OtherValue

  /** A tool input: an object, a text that is no JSON kept under "raw", or any other JSON kept under "value". */
  datatype Input = Object(json: string) | Raw(text: string) | Value(json: string)

  datatype Block = Words(text: string) | ToolUse(id: string, name: string, input: Input)

  datatype Answer = Answer(content: seq<Block>, stopReason: string)

  function WordBlocks(text: string): seq<Block> {
    if text != "" then [Words(text)] else []
  }

  // ---------------------------------------------------------------- buffered

  function InputOf(read: string -> Reading, arguments: string): Input {
    match read(arguments)
    case NotJson => Raw(arguments)
    case AnObject => Object(arguments)
    case OtherValue => Value(arguments)
  }

  function Use(read: string -> Reading, call: Call): Block {
    ToolUse(call.id, call.name, InputOf(read, call.arguments))
  }

  function Uses(read: string -> Reading, calls: seq<Call>): (blocks: seq<Block>)
    ensures |blocks| == |calls| && forall i | 0 <= i < |calls| :: blocks[i] == Use(read, calls[i])
  {
    if calls == [] then [] else Uses(read, calls[..|calls| - 1]) + [Use(read, calls[|calls| - 1])]
  }

  function AnswerOf(read: string -> Reading, chat: Chat): Answer {
    var blocks := WordBlocks(chat.content) + Uses(read, chat.calls);
    Answer(if blocks == [] then [Words("")] else blocks, StopReason(Or(chat.finish, "stop")))
  }

  lemma UsesNext(read: string -> Reading, calls: seq<Call>, i: nat)
    requires i < |calls|
    ensures forall before: seq<Block> ::
      before + Uses(read, calls[..i + 1]) == before + Uses(read, calls[..i]) + [Use(read, calls[i])]
  {
    assert calls[..i + 1][..i] == calls[..i];
  }

  /** chat_to_anthropic on a completion with one choice. */
  method ChatToAnthropic(read: string -> Reading, chat: Chat) returns (r: Answer)
    ensures r == AnswerOf(read, chat)
    ensures r.stopReason == (if chat.finish == "length" then "max_tokens"
                             else if chat.finish in {"tool_calls", "function_call"} then "tool_use"
                             else "end_turn")
  {
    var content: seq<Block> := [];
    var stopReason := StopReason(if chat.finish != "" then chat.finish else "stop");
    if chat.content != "" {
      content := content + [Words(chat.content)];
    }
    for i := 0 to |chat.calls|
      invariant content == WordBlocks(chat.content) + Uses(read, chat.calls[..i])
    {
      UsesNext(read, chat.calls, i);
      var call := chat.calls[i];
      content := content + [ToolUse(call.id, call.name, InputOf(read, call.arguments))];
    }
    assert chat.calls[..|chat.calls|] == chat.calls;
    if content == [] {
      content := content + [Words("")];
    }
    return Answer(content, stopReason);
  }

  // ---------------------------------------------------------------- what a client puts together

  function NewBlock(kind: Kind): Block {
    match kind
    case TextBlock => Words("")
    case ToolBlock(id, name) => ToolUse(id, name, Object(""))
  }

  function WithEvent(blocks: seq<Block>, e: Event): seq<Block> {
    match e
    case BlockStart(_, kind) => blocks + [NewBlock(kind)]
    case TextDelta(i, text) => if i < |blocks| && blocks[i].Words? then blocks[i := Words(blocks[i].text + text)] else blocks
    case JsonDelta(i, json) =>
      if i < |blocks| && blocks[i].ToolUse? && blocks[i].input.Object?
      then blocks[i := blocks[i].(input := Object(blocks[i].input.json + json))]
      else blocks
    case _ => blocks
  }

  /** Blocks as announced, each grown by its own deltas. */
  function Assembled(log: seq<Event>): seq<Block> {
    if log == [] then [] else WithEvent(Assembled(log[..|log| - 1]), log[|log| - 1])
  }

  /** The stop reason the log reports. */
  function ReportedReason(log: seq<Event>): Option<string> {
    if log == [] then None
    else if log[|log| - 1].MessageDelta? then Some(log[|log| - 1].stopReason)
    else ReportedReason(log[..|log| - 1])
  }

  lemma AssembledNext(log: seq<Event>, e: Event)
    ensures Assembled(log + [e]) == WithEvent(Assembled(log), e)
  {
    assert (log + [e])[..|log|] == log;
  }

  function BlockOf(kind: Kind, owner: Option<int>, text: string, calls: map<int, Call>): Block {
    match kind
    case TextBlock => Words(text)
    case ToolBlock(id, name) => ToolUse(id, name, Object(if owner.Some? then ArgumentsOf(calls, owner.value) else ""))
  }

  /** The blocks of a view. */
  ghost function Blocks(v: View): (blocks: seq<Block>)
    requires |v.kinds| == |v.owners|
    ensures |blocks| == |v.owners|
    ensures forall i | 0 <= i < |v.owners| :: blocks[i] == BlockOf(v.kinds[i], v.owners[i], v.text, v.calls)
  {
    seq(|v.owners|, i requires 0 <= i < |v.owners| => BlockOf(v.kinds[i], v.owners[i], v.text, v.calls))
  }

  /** The client has exactly the blocks of the view, and no text before its block. */
  ghost predicate Shows(v: View) {
    |v.kinds| == |v.owners| && Assembled(v.log) == Blocks(v) && (None !in v.owners ==> v.text == "")
  }

  lemma StartedShows(v: View)
    requires Shows(v)
    ensures Shows(Started(v))
  {
    AssembledNext(v.log, MessageStart);
  }

  lemma NewBlockShows(v: View, w: View, owner: Option<int>, kind: Kind)
    requires |v.kinds| == |v.owners| && (kind.TextBlock? <==> owner.None?)
    requires owner.Some? ==> owner.value !in v.calls
    requires w.owners == v.owners + [owner] && w.kinds == v.kinds + [kind] && w.calls == v.calls && w.text == v.text
    requires owner.None? ==> v.text == ""
    ensures Blocks(w) == Blocks(v) + [NewBlock(kind)]
  {
  }

  lemma OpenedShows(v: View, owner: Option<int>, kind: Kind)
    requires Owned(v) && Shows(v) && (kind.TextBlock? <==> owner.None?)
    ensures Shows(Opened(v, owner, kind))
  {
    if owner !in v.owners {
      var w := Opened(v, owner, kind);
      AssembledNext(v.log, BlockStart(|v.owners|, kind));
      NoCallYet(v, owner);
      NewBlockShows(v, w, owner, kind);
      assert forall o :: o in v.owners ==> o in w.owners;
    }
  }

  lemma TextShows(w: View, delta: string)
    requires MatchKinds(w.owners, w.kinds) && Distinct(w.owners) && Shows(w) && None in w.owners
    ensures Shows(w.(text := w.text + delta, log := w.log + [TextDelta(Place(w.owners, None), delta)]))
  {
    var at := Place(w.owners, None);
    AssembledNext(w.log, TextDelta(at, delta));
    var w' := w.(text := w.text + delta, log := w.log + [TextDelta(at, delta)]);
    forall i | 0 <= i < |w.owners| ensures Assembled(w'.log)[i] == Blocks(w')[i] {
      PlaceIsOnly(w.owners, None, i);
    }
    assert Assembled(w'.log) == Blocks(w');
  }

  lemma AddTextShows(v: View, delta: string)
    requires Fits(v) && Shows(v)
    ensures Shows(AddText(v, delta))
  {
    StartedFits(v);
    StartedShows(v);
    var s := Started(v);
    OpenedShows(s, None, TextBlock);
    OpenedOwns(s, None, TextBlock);
    OpenedLogs(s, None, TextBlock);
    TextShows(Opened(s, None, TextBlock), delta);
  }

  /** One more piece reaches the block of its own call and no other. */
  lemma BlockAfterCall(kind: Kind, owner: Option<int>, text: string, calls: map<int, Call>, d: CallDelta)
    requires kind.TextBlock? <==> owner.None?
    ensures var before := BlockOf(kind, owner, text, calls);
      BlockOf(kind, owner, text, MergeCall(calls, d))
      == if owner == Some(d.index) then before.(input := Object(before.input.json + d.arguments)) else before
  {
    if owner.Some? {
      MergedArguments(calls, d, owner.value);
    }
  }

  lemma CallShows(w: View, d: CallDelta, log: seq<Event>)
    requires MatchKinds(w.owners, w.kinds) && Distinct(w.owners) && Shows(w) && Some(d.index) in w.owners
    requires log == w.log + if d.arguments != "" then [JsonDelta(Place(w.owners, Some(d.index)), d.arguments)] else []
    ensures Shows(w.(calls := MergeCall(w.calls, d), log := log))
  {
    var at, w' := Place(w.owners, Some(d.index)), w.(calls := MergeCall(w.calls, d), log := log);
    forall i | 0 <= i < |w.owners|
      ensures Blocks(w')[i]
        == if i == at then Blocks(w)[i].(input := Object(Blocks(w)[i].input.json + d.arguments)) else Blocks(w)[i]
    {
      BlockAfterCall(w.kinds[i], w.owners[i], w.text, w.calls, d);
      PlaceIsOnly(w.owners, Some(d.index), i);
    }
    if d.arguments != "" {
      AssembledNext(w.log, JsonDelta(at, d.arguments));
    } else {
      assert log == w.log;
      assert Blocks(w)[at].input.json + "" == Blocks(w)[at].input.json;
    }
    assert Assembled(log) == Blocks(w');
  }

  lemma AddCallShows(v: View, d: CallDelta)
    requires Fits(v) && Shows(v)
    ensures Shows(AddCall(v, d))
  {
    StartedFits(v);
    StartedShows(v);
    var s, kind := Started(v), ToolBlock(d.id, d.name);
    OpenedShows(s, Some(d.index), kind);
    OpenedOwns(s, Some(d.index), kind);
    OpenedLogs(s, Some(d.index), kind);
    CallShows(Opened(s, Some(d.index), kind), d, AddCall(v, d).log);
  }

  lemma {:induction false} AddCallsShows(v: View, ds: seq<CallDelta>)
    requires Fits(v) && Shows(v)
    ensures Shows(AddCalls(v, ds))
  {
    if ds != [] {
      var rest := ds[..|ds| - 1];
      AddCallsShows(v, rest);
      AddCallsFits(v, rest);
      AddCallShows(AddCalls(v, rest), ds[|ds| - 1]);
    }
  }

  lemma {:induction false} StreamShows(chunks: seq<Chunk>)
    ensures Shows(ConsumedAll(Started(BEGIN), chunks))
  {
    if chunks == [] {
      StartedShows(BEGIN);
    } else {
      var rest, last := chunks[..|chunks| - 1], chunks[|chunks| - 1];
      StreamShows(rest);
      StreamFits(rest);
      var v := ConsumedAll(Started(BEGIN), rest);
      if last.Choice? {
        if last.content != "" {
          AddTextFits(v, last.content);
          AddTextShows(v, last.content);
        }
        AddCallsShows(if last.content != "" then AddText(v, last.content) else v, last.calls);
      }
    }
  }

  // ---------------------------------------------------------------- what the chunks say about it

  /** Each call's block is announced under the id and name of its first delta. */
  function HeadsWith(heads: map<int, Kind>, d: CallDelta): map<int, Kind> {
    if d.index in heads then heads else heads[d.index := ToolBlock(d.id, d.name)]
  }

  function HeadsAfter(heads: map<int, Kind>, ds: seq<CallDelta>): map<int, Kind> {
    if ds == [] then heads else HeadsWith(HeadsAfter(heads, ds[..|ds| - 1]), ds[|ds| - 1])
  }

  function Heads(chunks: seq<Chunk>): map<int, Kind> {
    if chunks == [] then map[]
    else
      var before := Heads(chunks[..|chunks| - 1]);
      if chunks[|chunks| - 1].Choice? then HeadsAfter(before, chunks[|chunks| - 1].calls) else before
  }

  /** How many calls had begun when the first text came, or in all if none came. */
  function TextPlace(chunks: seq<Chunk>): nat {
    if chunks == [] then 0 else
    var rest := chunks[..|chunks| - 1];
    if Content(rest) != "" then TextPlace(rest)
    else if Content(chunks) != "" then |R.Order(rest)|
    else |R.Order(chunks)|
  }

  function Tell(heads: map<int, Kind>, calls: map<int, Call>, k: int): Block {
    BlockOf(if k in heads then heads[k] else ToolBlock("", ""), Some(k), "", calls)
  }

  function Told(heads: map<int, Kind>, calls: map<int, Call>, order: seq<int>): (blocks: seq<Block>)
    ensures |blocks| == |order| && forall i | 0 <= i < |order| :: blocks[i] == Tell(heads, calls, order[i])
  {
    seq(|order|, i requires 0 <= i < |order| => Tell(heads, calls, order[i]))
  }

  function ToolsTold(chunks: seq<Chunk>): seq<Block> {
    Told(Heads(chunks), Calls(chunks), R.Order(chunks))
  }

  /** The streamed content: the tools in the order they began, the text where it began. */
  function StreamedContent(chunks: seq<Chunk>): seq<Block>
    requires TextPlace(chunks) <= |R.Order(chunks)|
  {
    ToolsTold(chunks)[..TextPlace(chunks)] + WordBlocks(Content(chunks)) + ToolsTold(chunks)[TextPlace(chunks)..]
  }

  function Somes(order: seq<int>): (owners: seq<Option<int>>)
    ensures |owners| == |order| && forall i | 0 <= i < |order| :: owners[i] == Some(order[i])
  {
    seq(|order|, i requires 0 <= i < |order| => Some(order[i]))
  }

  ghost predicate LaidOut(owners: seq<Option<int>>, order: seq<int>, place: nat) {
    && place <= |order|
    && if None in owners then owners == Somes(order[..place]) + [None] + Somes(order[place..])
       else owners == Somes(order) && place == |order|
  }

  ghost predicate Headed(v: View, heads: map<int, Kind>) {
    && MatchKinds(v.owners, v.kinds) && (forall k {:trigger k in heads} :: k in heads <==> Some(k) in v.owners)
    && forall i | 0 <= i < |v.owners| && v.owners[i].Some? && v.owners[i].value in heads :: v.kinds[i] == heads[v.owners[i].value]
  }

  lemma InLayout(owners: seq<Option<int>>, order: seq<int>, place: nat, k: int)
    requires LaidOut(owners, order, place)
    ensures Some(k) in owners <==> k in order
  {
    assert order == order[..place] + order[place..];
    if k in order {
      var i :| 0 <= i < |order| && order[i] == k;
      assert owners[if None in owners && i >= place then i + 1 else i] == Some(k);
    }
  }

  lemma TextJoins(owners: seq<Option<int>>, order: seq<int>, place: nat)
    requires LaidOut(owners, order, place) && None !in owners
    ensures LaidOut(owners + [None], order, place)
  {
    assert order[..place] == order && Somes(order[place..]) == [];
    assert owners + [None] == Somes(order[..place]) + [None] + Somes(order[place..]);
  }

  lemma CallJoins(owners: seq<Option<int>>, order: seq<int>, place: nat, k: int)
    requires LaidOut(owners, order, place)
    ensures LaidOut(owners + [Some(k)], order + [k], if None in owners then place else |order| + 1)
  {
    var more := owners + [Some(k)];
    if None in owners {
      assert (order + [k])[..place] == order[..place] && (order + [k])[place..] == order[place..] + [k];
      assert Somes(order[place..] + [k]) == Somes(order[place..]) + [Some(k)];
      assert more == Somes((order + [k])[..place]) + [None] + Somes((order + [k])[place..]);
      assert more[|Somes(order[..place])|] == None;
    } else {
      assert more == Somes(order + [k]);
    }
  }

  lemma OpenedLaid(v: View, owner: Option<int>, kind: Kind, order: seq<int>, place: nat)
    requires LaidOut(v.owners, order, place)
    ensures var w := Opened(v, owner, kind);
      match owner
      case None => LaidOut(w.owners, order, place) && None in w.owners
      case Some(k) => LaidOut(w.owners, R.WithIndex(order, k), if None in v.owners then place else |R.WithIndex(order, k)|)
                      && (None in w.owners <==> None in v.owners)
  {
    match owner
    case None => if None !in v.owners { TextJoins(v.owners, order, place); }
    case Some(k) =>
      InLayout(v.owners, order, place, k);
      CallJoins(v.owners, order, place, k);
  }

  lemma HeadedAt(v: View, heads: map<int, Kind>, k: int)
    requires Headed(v, heads)
    ensures k in heads <==> Some(k) in v.owners
  {
  }

  lemma OpenedHeaded(v: View, owner: Option<int>, kind: Kind, heads: map<int, Kind>)
    requires Headed(v, heads) && (kind.TextBlock? <==> owner.None?)
    ensures Headed(Opened(v, owner, kind), if owner.Some? && owner.value !in heads then heads[owner.value := kind] else heads)
  {
    var w := Opened(v, owner, kind);
    var heads' := if owner.Some? && owner.value !in heads then heads[owner.value := kind] else heads;
    if owner.Some? {
      assert owner == Some(owner.value);
      HeadedAt(v, heads, owner.value);
    }
    if owner !in v.owners {
      forall k ensures k in heads' <==> Some(k) in w.owners {
        assert Some(k) in w.owners <==> Some(k) in v.owners || Some(k) == owner;
      }
      forall i | 0 <= i < |v.owners| && v.owners[i].Some? ensures v.owners[i].value in heads && v.owners[i] != owner {
        assert v.owners[i] in v.owners && v.owners[i] == Some(v.owners[i].value);
      }
    }
  }

  /** The view's blocks, as indexes, text place and announcements tell them. */
  ghost predicate Traced(v: View, order: seq<int>, place: nat, heads: map<int, Kind>) {
    LaidOut(v.owners, order, place) && Headed(v, heads)
  }

  lemma AddTextTraced(v: View, delta: string, order: seq<int>, place: nat, heads: map<int, Kind>)
    requires Traced(v, order, place, heads)
    ensures Traced(AddText(v, delta), order, place, heads) && None in AddText(v, delta).owners
  {
    OpenedLaid(Started(v), None, TextBlock, order, place);
    OpenedHeaded(Started(v), None, TextBlock, heads);
  }

  lemma AddCallTraced(v: View, d: CallDelta, order: seq<int>, place: nat, heads: map<int, Kind>)
    requires Traced(v, order, place, heads)
    ensures var order' := R.WithIndex(order, d.index);
      Traced(AddCall(v, d), order', if None in v.owners then place else |order'|, HeadsWith(heads, d))
    ensures None in AddCall(v, d).owners <==> None in v.owners
  {
    OpenedLaid(Started(v), Some(d.index), ToolBlock(d.id, d.name), order, place);
    OpenedHeaded(Started(v), Some(d.index), ToolBlock(d.id, d.name), heads);
  }

  lemma {:induction false} AddCallsTraced(v: View, ds: seq<CallDelta>, order: seq<int>, place: nat, heads: map<int, Kind>)
    requires Traced(v, order, place, heads)
    ensures var order' := R.WithIndexes(order, ds);
      Traced(AddCalls(v, ds), order', if None in v.owners then place else |order'|, HeadsAfter(heads, ds))
    ensures None in AddCalls(v, ds).owners <==> None in v.owners
  {
    if ds != [] {
      var rest := ds[..|ds| - 1];
      AddCallsTraced(v, rest, order, place, heads);
      var order' := R.WithIndexes(order, rest);
      var place' := if None in v.owners then place else |order'|;
      AddCallTraced(AddCalls(v, rest), ds[|ds| - 1], order', place', HeadsAfter(heads, rest));
    }
  }

  lemma {:induction false} StreamIsTraced(chunks: seq<Chunk>)
    ensures var v := ConsumedAll(Started(BEGIN), chunks);
      Traced(v, R.Order(chunks), TextPlace(chunks), Heads(chunks)) && (None in v.owners <==> Content(chunks) != "")
  {
    if chunks != [] {
      var rest, last := chunks[..|chunks| - 1], chunks[|chunks| - 1];
      StreamIsTraced(rest);
      var v := ConsumedAll(Started(BEGIN), rest);
      if last.Choice? {
        var order, place, heads := R.Order(rest), TextPlace(rest), Heads(rest);
        var w := if last.content != "" then AddText(v, last.content) else v;
        if last.content != "" {
          AddTextTraced(v, last.content, order, place, heads);
        }
        AddCallsTraced(w, last.calls, order, place, heads);
      }
    }
  }

  lemma BlocksAreTold(v: View, order: seq<int>, place: nat, heads: map<int, Kind>)
    requires Traced(v, order, place, heads)
    ensures var told := Told(heads, v.calls, order);
      Blocks(v) == told[..place] + (if None in v.owners then [Words(v.text)] else []) + told[place..]
  {
    var told := Told(heads, v.calls, order);
    forall i | 0 <= i < |v.owners| ensures v.owners[i].Some? ==> Blocks(v)[i] == Tell(heads, v.calls, v.owners[i].value) {
      if v.owners[i].Some? {
        assert v.owners[i] == Some(v.owners[i].value) && v.owners[i] in v.owners;
      }
    }
    if None in v.owners {
      assert |v.owners| == |order| + 1;
    }
  }

  lemma {:induction false} StopsShowNothing(log: seq<Event>, es: seq<Event>)
    requires forall e | e in es :: e.BlockStop?
    ensures Assembled(log + es) == Assembled(log)
  {
    if es == [] {
      assert log + es == log;
    } else {
      var rest, last := es[..|es| - 1], es[|es| - 1];
      StopsShowNothing(log, rest);
      assert log + es == log + rest + [last] && last in es;
      AssembledNext(log + rest, last);
    }
  }

  lemma {:induction false} ToolStopsAreStops(owners: seq<Option<int>>)
    ensures forall e | e in ToolStops(owners) :: e.BlockStop?
  {
    if owners != [] {
      ToolStopsAreStops(owners[..|owners| - 1]);
    }
  }

  lemma StopsAreStops(owners: seq<Option<int>>)
    ensures forall e | e in Stops(owners) :: e.BlockStop?
  {
    ToolStopsAreStops(owners);
  }

  lemma ClosingShows(log: seq<Event>, stopReason: string)
    ensures Assembled(log + [MessageDelta(stopReason), MessageStop]) == Assembled(log)
    ensures ReportedReason(log + [MessageDelta(stopReason), MessageStop]) == Some(stopReason)
  {
    var closing := log + [MessageDelta(stopReason)];
    assert closing[..|closing| - 1] == log;
    assert (closing + [MessageStop])[..|closing|] == closing;
    assert log + [MessageDelta(stopReason), MessageStop] == closing + [MessageStop];
  }

  lemma EndingShows(v: View, stopReason: string)
    ensures Assembled(v.log + Ending(v, stopReason)) == Assembled(v.log)
    ensures ReportedReason(v.log + Ending(v, stopReason)) == Some(stopReason)
  {
    StopsAreStops(v.owners);
    StopsShowNothing(v.log, Stops(v.owners));
    ClosingShows(v.log + Stops(v.owners), stopReason);
    assert v.log + Ending(v, stopReason) == v.log + Stops(v.owners) + [MessageDelta(stopReason), MessageStop];
  }

  lemma ViewContent(chunks: seq<Chunk>)
    ensures TextPlace(chunks) <= |R.Order(chunks)|
    ensures Assembled(ConsumedAll(Started(BEGIN), chunks).log) == StreamedContent(chunks)
  {
    var v := ConsumedAll(Started(BEGIN), chunks);
    StreamFits(chunks);
    StreamShows(chunks);
    StreamIsTraced(chunks);
    BlocksAreTold(v, R.Order(chunks), TextPlace(chunks), Heads(chunks));
    assert Assembled(v.log) == Blocks(v);
  }

  /** What a client puts together from a finished stream, told from the chunks alone. */
  lemma ClientContent(chunks: seq<Chunk>, stopReason: string)
    ensures TextPlace(chunks) <= |R.Order(chunks)|
    ensures var v := ConsumedAll(Started(BEGIN), chunks);
      var log := v.log + Ending(v, stopReason);
      Assembled(log) == StreamedContent(chunks) && ReportedReason(log) == Some(stopReason)
  {
    ViewContent(chunks);
    EndingShows(ConsumedAll(Started(BEGIN), chunks), stopReason);
  }

  // ---------------------------------------------------------------- agreement

  /** Something was said or called. */
  predicate NonEmpty(chunks: seq<Chunk>) {
    Content(chunks) != "" || R.Order(chunks) != []
  }

  /** No call began before the first text. */
  predicate TextLeads(chunks: seq<Chunk>) {
    Content(chunks) == "" || TextPlace(chunks) == 0
  }

  /** The call announced as `k` reads like the completion's call `l`: the same id, name and arguments, which are a
      JSON object. */
  predicate ReadsLike(read: string -> Reading, chunks: seq<Chunk>, k: int, l: int)
    requires l in Calls(chunks)
  {
    var call := Calls(chunks)[l];
    Tell(Heads(chunks), Calls(chunks), k) == ToolUse(call.id, call.name, Object(call.arguments)) && read(call.arguments).AnObject?
  }

  /** The calls in the order they began read like the calls in index order. */
  ghost predicate ToolsMatch(read: string -> Reading, chunks: seq<Chunk>) {
    var order, sorted := R.Order(chunks), Sorted(Calls(chunks).Keys);
    |order| == |sorted|
    && forall j | 0 <= j < |order| && sorted[j] in Calls(chunks) :: ReadsLike(read, chunks, order[j], sorted[j])
  }

  function Buffered(read: string -> Reading, chunks: seq<Chunk>): Answer
    requires LastFinish(chunks).Some?
  {
    AnswerOf(read, Collapsed(chunks).value)
  }

  function ToolsUsed(read: string -> Reading, chunks: seq<Chunk>): seq<Block> {
    Uses(read, InOrder(Calls(chunks), Sorted(Calls(chunks).Keys)))
  }

  lemma ToolsMatchIsEquality(read: string -> Reading, chunks: seq<Chunk>)
    ensures ToolsMatch(read, chunks) <==> ToolsTold(chunks) == ToolsUsed(read, chunks)
  {
    var order, sorted, calls := R.Order(chunks), Sorted(Calls(chunks).Keys), Calls(chunks);
    var told, used := ToolsTold(chunks), ToolsUsed(read, chunks);
    forall j | 0 <= j < |order| && j < |sorted| ensures told[j] == used[j] <==> ReadsLike(read, chunks, order[j], sorted[j]) {
      assert sorted[j] in sorted && sorted[j] in calls;
      assert used[j] == Use(read, calls[sorted[j]]);
    }
    if ToolsMatch(read, chunks) {
      forall j | 0 <= j < |order| ensures told[j] == used[j] {
        assert sorted[j] in sorted && sorted[j] in calls;
      }
      assert told == used;
    }
  }

  lemma SplitsAt(tools: seq<Block>, words: Block, place: nat, used: seq<Block>)
    requires place <= |tools| && words.Words? && forall b | b in tools :: b.ToolUse?
    ensures tools[..place] + [words] + tools[place..] == [words] + used <==> place == 0 && tools == used
  {
    var all := tools[..place] + [words] + tools[place..];
    if place == 0 {
      assert all == [words] + tools;
      assert ([words] + tools)[1..] == tools && ([words] + used)[1..] == used;
    } else {
      assert all[0] == tools[0] && tools[0] in tools;
    }
  }

  lemma ToldAreTools(chunks: seq<Chunk>)
    ensures forall b | b in ToolsTold(chunks) :: b.ToolUse?
  {
    HeadsAreTools(chunks);
  }

  lemma {:induction false} HeadsAreTools(chunks: seq<Chunk>)
    ensures forall k | k in Heads(chunks) :: Heads(chunks)[k].ToolBlock?
  {
    if chunks != [] {
      HeadsAreTools(chunks[..|chunks| - 1]);
      if chunks[|chunks| - 1].Choice? {
        MoreHeadsAreTools(Heads(chunks[..|chunks| - 1]), chunks[|chunks| - 1].calls);
      }
    }
  }

  lemma {:induction false} MoreHeadsAreTools(heads: map<int, Kind>, ds: seq<CallDelta>)
    requires forall k | k in heads :: heads[k].ToolBlock?
    ensures forall k | k in HeadsAfter(heads, ds) :: HeadsAfter(heads, ds)[k].ToolBlock?
  {
    if ds != [] {
      MoreHeadsAreTools(heads, ds[..|ds| - 1]);
    }
  }

  lemma Whole(tools: seq<Block>, place: nat)
    requires place <= |tools|
    ensures tools[..place] + [] + tools[place..] == tools
  {
  }

  /** Content is the text, if any, in its place among the tools. */
  lemma ListsAgree(told: seq<Block>, text: string, place: nat, used: seq<Block>)
    requires place <= |told| && (forall b | b in told :: b.ToolUse?) && (forall b | b in used :: b.ToolUse?)
    ensures var blocks := WordBlocks(text) + used;
      told[..place] + WordBlocks(text) + told[place..] == (if blocks == [] then [Words("")] else blocks)
      <==> (text != "" || used != []) && (text == "" || place == 0) && told == used
  {
    if text == "" {
      Whole(told, place);
      assert [] + used == used;
      if used == [] && told != [] {
        assert told[0] in told;
      }
    } else {
      SplitsAt(told, Words(text), place, used);
      assert WordBlocks(text) + used == [Words(text)] + used;
    }
  }

  lemma UsedAreTools(read: string -> Reading, chunks: seq<Chunk>)
    ensures forall b | b in ToolsUsed(read, chunks) :: b.ToolUse?
    ensures ToolsUsed(read, chunks) == [] <==> R.Order(chunks) == []
  {
    R.OrderCovers(chunks);
    EmptyTogether(R.Order(chunks), Sorted(Calls(chunks).Keys));
  }

  /** Streamed and buffered content are equal if and only if something was said or called, no call began before the
      text, and the calls, in the order they began, read like the calls in index order. */
  lemma ContentsAgreeExactly(read: string -> Reading, chunks: seq<Chunk>)
    requires LastFinish(chunks).Some?
    ensures TextPlace(chunks) <= |R.Order(chunks)|
    ensures StreamedContent(chunks) == Buffered(read, chunks).content
      <==> NonEmpty(chunks) && TextLeads(chunks) && ToolsMatch(read, chunks)
  {
    StreamIsTraced(chunks);
    ToolsMatchIsEquality(read, chunks);
    ToldAreTools(chunks);
    UsedAreTools(read, chunks);
    ListsAgree(ToolsTold(chunks), Content(chunks), TextPlace(chunks), ToolsUsed(read, chunks));
  }

  /** Every call kept the id and name it was announced with. */
  predicate NamesStay(chunks: seq<Chunk>) {
    forall k | k in Calls(chunks) ::
      k in Heads(chunks) && Heads(chunks)[k] == ToolBlock(Calls(chunks)[k].id, Calls(chunks)[k].name)
  }

  predicate ArgumentsAreObjects(read: string -> Reading, chunks: seq<Chunk>) {
    forall k | k in Calls(chunks) :: read(Calls(chunks)[k].arguments).AnObject?
  }

  /** In particular: text first, calls beginning in index order, names sent at once, arguments that are objects. */
  lemma ContentsAgree(read: string -> Reading, chunks: seq<Chunk>)
    requires LastFinish(chunks).Some? && NonEmpty(chunks) && TextLeads(chunks)
    requires Ascending(R.Order(chunks)) && NamesStay(chunks) && ArgumentsAreObjects(read, chunks)
    ensures TextPlace(chunks) <= |R.Order(chunks)| && StreamedContent(chunks) == Buffered(read, chunks).content
  {
    R.OrderCovers(chunks);
    R.OrderIsSorted(chunks);
    ContentsAgreeExactly(read, chunks);
  }

  /** The stop reasons are equal exactly when the last choice gives the finish reason or the reason kept from before
      means the end of the turn. */
  lemma ReasonsAgreeExactly(read: string -> Reading, chunks: seq<Chunk>)
    requires LastFinish(chunks).Some?
    ensures Reason("end_turn", chunks) == Buffered(read, chunks).stopReason
      <==> LastFinish(chunks).value != "" || Reason("end_turn", chunks) == "end_turn"
  {
    if LastFinish(chunks).value != "" {
      LastReason(chunks);
    }
  }

  lemma {:induction false} ReasonIsOfFinish(chunks: seq<Chunk>)
    ensures Reason("end_turn", chunks) == StopReason(R.StreamFinish(chunks))
  {
    if chunks != [] && R.Silent(chunks[|chunks| - 1]) {
      ReasonIsOfFinish(chunks[..|chunks| - 1]);
    }
  }

  /** The streamed stop reason, told by the last finish reason any chunk gave. */
  lemma StreamReasonTells(chunks: seq<Chunk>)
    ensures Reason("end_turn", chunks) in {"max_tokens", "tool_use", "end_turn"}
    ensures Reason("end_turn", chunks) == "max_tokens" <==> R.FinishedBy(chunks, "length")
    ensures Reason("end_turn", chunks) == "tool_use" <==> R.FinishedBy(chunks, "tool_calls") || R.FinishedBy(chunks, "function_call")
  {
    ReasonIsOfFinish(chunks);
    R.StreamFinishIs(chunks, "length");
    R.StreamFinishIs(chunks, "tool_calls");
    R.StreamFinishIs(chunks, "function_call");
  }

  lemma {:induction false} LastReason(chunks: seq<Chunk>)
    requires LastFinish(chunks).Some? && LastFinish(chunks).value != ""
    ensures Reason("end_turn", chunks) == StopReason(LastFinish(chunks).value)
  {
    if chunks[|chunks| - 1].NoChoices? {
      LastReason(chunks[..|chunks| - 1]);
    }
  }

  /** What a client reads off a finished event log is the buffered translation, under exactly those conditions. */
  lemma StreamAgreesWithBuffer(read: string -> Reading, chunks: seq<Chunk>)
    requires LastFinish(chunks).Some?
    ensures var v := ConsumedAll(Started(BEGIN), chunks);
      var log := v.log + Ending(v, Reason("end_turn", chunks));
      Answer(Assembled(log), if ReportedReason(log).Some? then ReportedReason(log).value else "") == Buffered(read, chunks)
      <==> && NonEmpty(chunks) && TextLeads(chunks) && ToolsMatch(read, chunks)
           && (LastFinish(chunks).value != "" || Reason("end_turn", chunks) == "end_turn")
  {
    ClientContent(chunks, Reason("end_turn", chunks));
    ContentsAgreeExactly(read, chunks);
    ReasonsAgreeExactly(read, chunks);
  }

  const FIRST := CallDelta(0, "a", "", "")
  const SECOND := CallDelta(0, "", "get", "{}")

  lemma OneDelta(heads: map<int, Kind>, calls: map<int, Call>, order: seq<int>, d: CallDelta)
    ensures HeadsAfter(heads, [d]) == HeadsWith(heads, d) && MergeCalls(calls, [d]) == MergeCall(calls, d)
    ensures R.WithIndexes(order, [d]) == R.WithIndex(order, d.index)
  {
    assert [d][..0] == [];
  }

  lemma AfterFirst(chunks: seq<Chunk>)
    requires chunks == [Choice("", [FIRST], "")]
    ensures Heads(chunks) == map[0 := ToolBlock("a", "")] && Calls(chunks) == map[0 := Call("a", "", "")]
    ensures R.Order(chunks) == [0] && Content(chunks) == ""
  {
    assert chunks[..0] == [];
    OneDelta(map[], map[], [], FIRST);
  }

  lemma AfterSecond(chunks: seq<Chunk>)
    requires chunks == [Choice("", [FIRST], ""), Choice("", [SECOND], "tool_calls")]
    ensures Heads(chunks) == map[0 := ToolBlock("a", "")] && Calls(chunks) == map[0 := Call("a", "get", "{}")]
    ensures R.Order(chunks) == [0] && Content(chunks) == "" && LastFinish(chunks) == Some("tool_calls")
  {
    assert chunks[..1] == [Choice("", [FIRST], "")];
    AfterFirst(chunks[..1]);
    OneDelta(map[0 := ToolBlock("a", "")], map[0 := Call("a", "", "")], [0], SECOND);
    assert "" + "{}" == "{}";
  }

  lemma OnlyKey(sorted: seq<int>)
    requires Ascending(sorted) && forall k :: k in sorted <==> k == 0
    ensures sorted == [0]
  {
    AscendingIsUnique([0], sorted);
  }

  lemma OneCall(read: string -> Reading, chunks: seq<Chunk>)
    requires chunks == [Choice("", [FIRST], ""), Choice("", [SECOND], "tool_calls")]
    ensures ToolsTold(chunks) == [ToolUse("a", "", Object("{}"))]
    ensures ToolsUsed(read, chunks) == [ToolUse("a", "get", InputOf(read, "{}"))]
  {
    AfterSecond(chunks);
    OnlyKey(Sorted(Calls(chunks).Keys));
  }

  /** A name that comes with the second piece reaches the buffered answer and never the client of the stream. */
  lemma LateNamesAreLost(read: string -> Reading) returns (chunks: seq<Chunk>)
    ensures LastFinish(chunks).Some? && TextPlace(chunks) <= |R.Order(chunks)|
    ensures StreamedContent(chunks) == [ToolUse("a", "", Object("{}"))]
    ensures Buffered(read, chunks).content == [ToolUse("a", "get", InputOf(read, "{}"))]
  {
    chunks := [Choice("", [FIRST], ""), Choice("", [SECOND], "tool_calls")];
    OneCall(read, chunks);
    AfterSecond(chunks);
    StreamIsTraced(chunks);
    Whole(ToolsTold(chunks), TextPlace(chunks));
    assert WordBlocks("") + ToolsUsed(read, chunks) == ToolsUsed(read, chunks);
  }
}
