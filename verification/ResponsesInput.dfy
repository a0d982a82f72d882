/**
 Responses input as chat messages (smart-router/src/smart_router/responses.py:141-195).
 */
module ResponsesInput {
  import opened ChatStream
  import opened ResponsesStream

  /** A message's content: text, or parts when an image is among them. */
  datatype Body = Text(text: string) | Parts(parts: seq<string>)

  /** A list element by what _input_to_messages does with it. `Plain` is a string, or anything else in words. */
  datatype Item =
    | Plain(text: string)
    | FunctionCall(call: Call)
    | FunctionOutput(callId: string, output: string)
    | PassedOver
    | Said(kind: string, role: string, body: Body)

  datatype Input = Absent | Words(text: string) | Items(items: seq<Item>)

  datatype ChatMessage = Says(role: string, body: Body) | ToolCalls(calls: seq<Call>) | ToolResult(callId: string, output: string)

  // ---------------------------------------------------------------- what must arrive

  /** The parts of a conversation, one by one. */
  datatype Piece = Spoken(role: string, body: Body) | Asked(call: Call) | Returned(callId: string, output: string)

  function PieceOf(item: Item): seq<Piece> {
    match item
    case Plain(text) => [Spoken("user", Text(text))]
    case FunctionCall(call) => [Asked(call)]
    case FunctionOutput(callId, output) => [Returned(callId, output)]
    case PassedOver => []
    case Said(kind, role, body) => if body == Text("") && kind != "message" && kind != "" then [] else [Spoken(role, body)]
  }

  function PiecesOf(items: seq<Item>): seq<Piece> {
    if items == [] then [] else PiecesOf(items[..|items| - 1]) + PieceOf(items[|items| - 1])
  }

  function AllAsked(calls: seq<Call>): seq<Piece> {
    if calls == [] then [] else AllAsked(calls[..|calls| - 1]) + [Asked(calls[|calls| - 1])]
  }

  function PiecesIn(m: ChatMessage): seq<Piece> {
    match m
    case Says(role, body) => [Spoken(role, body)]
    case ToolCalls(calls) => AllAsked(calls)
    case ToolResult(callId, output) => [Returned(callId, output)]
  }

  function Flat(messages: seq<ChatMessage>): seq<Piece> {
    if messages == [] then [] else Flat(messages[..|messages| - 1]) + PiecesIn(messages[|messages| - 1])
  }

  /** Calls that follow each other share one message. */
  predicate Grouped(messages: seq<ChatMessage>) {
    && (forall i | 0 <= i < |messages| && messages[i].ToolCalls? :: messages[i].calls != [])
    && forall i | 0 <= i < |messages| - 1 :: !(messages[i].ToolCalls? && messages[i + 1].ToolCalls?)
  }

  function Opening(instructions: string): seq<Piece> {
    if instructions != "" then [Spoken("system", Text(instructions))] else []
  }

  /** Every part exactly once and in order, calls grouped; a conversation without parts becomes one empty turn. */
  predicate Translates(items: seq<Item>, instructions: string, messages: seq<ChatMessage>) {
    var pieces := Opening(instructions) + PiecesOf(items);
    if pieces == [] then messages == [Says("user", Text(""))]
    else Grouped(messages) && Flat(messages) == pieces
  }

  // ---------------------------------------------------------------- the loop

  lemma GroupedMore(messages: seq<ChatMessage>, m: ChatMessage)
    requires Grouped(messages) && (m.ToolCalls? ==> m.calls != [])
    requires messages != [] && m.ToolCalls? ==> !messages[|messages| - 1].ToolCalls?
    ensures Grouped(messages + [m])
  {
    var more := messages + [m];
    forall i | 0 <= i < |more| - 1 ensures !(more[i].ToolCalls? && more[i + 1].ToolCalls?) {
      if i < |messages| - 1 {
        assert more[i] == messages[i] && more[i + 1] == messages[i + 1];
      }
    }
  }

  lemma FlatMore(messages: seq<ChatMessage>, m: ChatMessage)
    ensures Flat(messages + [m]) == Flat(messages) + PiecesIn(m)
  {
    assert (messages + [m])[..|messages|] == messages;
  }

  lemma OneMoreMessage(messages: seq<ChatMessage>, m: ChatMessage)
    requires Grouped(messages) && (m.ToolCalls? ==> m.calls != [])
    requires messages != [] && m.ToolCalls? ==> !messages[|messages| - 1].ToolCalls?
    ensures Grouped(messages + [m]) && Flat(messages + [m]) == Flat(messages) + PiecesIn(m)
  {
    GroupedMore(messages, m);
    FlatMore(messages, m);
  }

  lemma MoreAsked(calls: seq<Call>, call: Call)
    ensures AllAsked(calls + [call]) == AllAsked(calls) + [Asked(call)]
  {
    assert (calls + [call])[..|calls|] == calls;
  }

  lemma CallGroups(messages: seq<ChatMessage>, last: nat, calls: seq<Call>)
    requires Grouped(messages) && last < |messages| && messages[last].ToolCalls? && calls != []
    ensures Grouped(messages[last := ToolCalls(calls)])
  {
    var more := messages[last := ToolCalls(calls)];
    forall i | 0 <= i < |more| - 1 ensures !(more[i].ToolCalls? && more[i + 1].ToolCalls?) {
      assert !(messages[i].ToolCalls? && messages[i + 1].ToolCalls?);
    }
  }

  lemma CallFlat(rest: seq<ChatMessage>, calls: seq<Call>, call: Call)
    ensures Flat(rest + [ToolCalls(calls + [call])]) == Flat(rest + [ToolCalls(calls)]) + [Asked(call)]
  {
    FlatMore(rest, ToolCalls(calls));
    FlatMore(rest, ToolCalls(calls + [call]));
    MoreAsked(calls, call);
  }

  lemma OneMoreCall(messages: seq<ChatMessage>, call: Call)
    requires Grouped(messages) && messages != [] && messages[|messages| - 1].ToolCalls?
    ensures var last := |messages| - 1;
      var more := messages[last := ToolCalls(messages[last].calls + [call])];
      Grouped(more) && Flat(more) == Flat(messages) + [Asked(call)]
  {
    var last := |messages| - 1;
    var rest, calls := messages[..last], messages[last].calls;
    CallGroups(messages, last, calls + [call]);
    CallFlat(rest, calls, call);
    assert messages == rest + [ToolCalls(calls)];
    assert messages[last := ToolCalls(calls + [call])] == rest + [ToolCalls(calls + [call])];
  }

  /** The messages so far hold these pieces; `pending` says that the last one holds calls. */
  ghost predicate Held(messages: seq<ChatMessage>, pieces: seq<Piece>, pending: bool) {
    Grouped(messages) && Flat(messages) == pieces && (pending <==> messages != [] && messages[|messages| - 1].ToolCalls?)
  }

  lemma TakeMessage(messages: seq<ChatMessage>, pieces: seq<Piece>, pending: bool, m: ChatMessage, piece: seq<Piece>)
    requires Held(messages, pieces, pending) && !m.ToolCalls? && PiecesIn(m) == piece
    ensures Held(messages + [m], pieces + piece, false)
  {
    OneMoreMessage(messages, m);
  }

  lemma TakeFirstCall(messages: seq<ChatMessage>, pieces: seq<Piece>, call: Call)
    requires Held(messages, pieces, false)
    ensures Held(messages + [ToolCalls([call])], pieces + [Asked(call)], true)
  {
    assert [call][..0] == [] && AllAsked([call]) == [Asked(call)];
    OneMoreMessage(messages, ToolCalls([call]));
  }

  lemma TakeNextCall(messages: seq<ChatMessage>, pieces: seq<Piece>, call: Call)
    requires Held(messages, pieces, true)
    ensures messages != [] && messages[|messages| - 1].ToolCalls?
    ensures Held(messages[|messages| - 1 := ToolCalls(messages[|messages| - 1].calls + [call])], pieces + [Asked(call)], true)
  {
    OneMoreCall(messages, call);
  }

  lemma TakeNothing(messages: seq<ChatMessage>, pieces: seq<Piece>, pending: bool)
    requires Held(messages, pieces, pending)
    ensures Held(messages, pieces + [], pending)
  {
    assert pieces + [] == pieces;
  }

  lemma NoPiecesNoMessages(messages: seq<ChatMessage>)
    requires Grouped(messages)
    ensures messages == [] <==> Flat(messages) == []
  {
    if messages != [] {
      LastMessage(messages);
    }
  }

  method SystemMessage(instructions: string) returns (messages: seq<ChatMessage>)
    ensures Held(messages, Opening(instructions), false)
  {
    if instructions == "" {
      return [];
    }
    var m := Says("system", Text(instructions));
    TakeMessage([], [], false, m, Opening(instructions));
    assert [] + [m] == [m] && [] + Opening(instructions) == Opening(instructions);
    return [m];
  }

  method InputToMessages(input: Input, instructions: string) returns (messages: seq<ChatMessage>)
    ensures input.Items? ==> Translates(input.items, instructions, messages)
    ensures input.Words? ==> Held(messages, Opening(instructions) + [Spoken("user", Text(input.text))], false)
    ensures input.Absent? ==> Held(messages, Opening(instructions), false)
  {
    messages := SystemMessage(instructions);
    match input {
      case Absent =>
      case Words(text) =>
        TakeMessage(messages, Opening(instructions), false, Says("user", Text(text)), [Spoken("user", Text(text))]);
        messages := messages + [Says("user", Text(text))];
      case Items(items) =>
        messages := AddItems(messages, items, Opening(instructions));
        NoPiecesNoMessages(messages);
        if messages == [] {
          messages := [Says("user", Text(""))];
        }
    }
  }

  /** A function call joins the calls before it, or starts a message. A pending call means that the last message
      holds calls, so appending to it is safe. */
  method AddCall(start: seq<ChatMessage>, pending: bool, call: Call, ghost pieces: seq<Piece>) returns (messages: seq<ChatMessage>)
    requires Held(start, pieces, pending)
    ensures Held(messages, pieces + [Asked(call)], true)
  {
    if pending {
      TakeNextCall(start, pieces, call);
      var last := |start| - 1;
      return start[last := ToolCalls(start[last].calls + [call])];
    }
    TakeFirstCall(start, pieces, call);
    return start + [ToolCalls([call])];
  }

  method AddMessage(start: seq<ChatMessage>, ghost pending: bool, m: ChatMessage, ghost pieces: seq<Piece>, ghost piece: seq<Piece>)
    returns (messages: seq<ChatMessage>)
    requires Held(start, pieces, pending) && !m.ToolCalls? && PiecesIn(m) == piece
    ensures Held(messages, pieces + piece, false)
  {
    TakeMessage(start, pieces, pending, m, piece);
    return start + [m];
  }

  /** One pass of the item loop. */
  method AddItem(start: seq<ChatMessage>, wasPending: bool, item: Item, ghost pieces: seq<Piece>)
    returns (messages: seq<ChatMessage>, pending: bool)
    requires Held(start, pieces, wasPending)
    ensures Held(messages, pieces + PieceOf(item), pending)
  {
    messages, pending := start, false;
    match item {
      case Plain(text) =>
        messages := AddMessage(start, wasPending, Says("user", Text(text)), pieces, PieceOf(item));
      case FunctionCall(call) =>
        messages := AddCall(start, wasPending, call, pieces);
        pending := true;
      case FunctionOutput(callId, output) =>
        messages := AddMessage(start, wasPending, ToolResult(callId, output), pieces, PieceOf(item));
      case PassedOver =>
        TakeNothing(start, pieces, wasPending);
        pending := wasPending;
      case Said(kind, role, body) =>
        if body == Text("") && kind !in {"message", ""} {
          TakeNothing(start, pieces, wasPending);
          pending := wasPending;
        } else {
          messages := AddMessage(start, wasPending, Says(role, body), pieces, PieceOf(item));
        }
    }
  }

  /** The item loop. */
  method AddItems(start: seq<ChatMessage>, items: seq<Item>, ghost before: seq<Piece>) returns (messages: seq<ChatMessage>)
    requires Held(start, before, false)
    ensures Grouped(messages) && Flat(messages) == before + PiecesOf(items)
  {
    messages := start;
    var pending := false;
    assert items[..0] == [] && before + [] == before;
    for i := 0 to |items|
      invariant Held(messages, before + PiecesOf(items[..i]), pending)
    {
      OneMoreItem(items, i, before);
      messages, pending := AddItem(messages, pending, items[i], before + PiecesOf(items[..i]));
    }
    assert items[..|items|] == items;
  }

  lemma OneMoreItem(items: seq<Item>, i: nat, before: seq<Piece>)
    requires i < |items|
    ensures before + PiecesOf(items[..i + 1]) == before + PiecesOf(items[..i]) + PieceOf(items[i])
  {
    assert items[..i + 1][..i] == items[..i];
  }

  // ---------------------------------------------------------------- the translation is determined

  /** The calls at the end of a list of pieces. */
  function Tail(pieces: seq<Piece>): (calls: seq<Call>)
    ensures |calls| <= |pieces|
  {
    if pieces == [] || !pieces[|pieces| - 1].Asked? then []
    else Tail(pieces[..|pieces| - 1]) + [pieces[|pieces| - 1].call]
  }

  lemma {:induction false} AskedLength(calls: seq<Call>)
    ensures |AllAsked(calls)| == |calls|
  {
    if calls != [] {
      AskedLength(calls[..|calls| - 1]);
    }
  }

  lemma {:induction false} TailOfAsked(before: seq<Piece>, calls: seq<Call>)
    requires before != [] ==> !before[|before| - 1].Asked?
    ensures Tail(before + AllAsked(calls)) == calls
  {
    if calls == [] {
      assert before + [] == before;
    } else {
      var rest, last := calls[..|calls| - 1], calls[|calls| - 1];
      TailOfAsked(before, rest);
      var pieces := before + AllAsked(calls);
      assert pieces == before + AllAsked(rest) + [Asked(last)];
      assert pieces[..|pieces| - 1] == before + AllAsked(rest);
      assert calls == rest + [last];
    }
  }

  lemma {:induction false} LastIsNotAsked(messages: seq<ChatMessage>)
    requires Grouped(messages) && messages != [] && !messages[|messages| - 1].ToolCalls?
    ensures Flat(messages) != [] && !Flat(messages)[|Flat(messages)| - 1].Asked?
  {
  }

  /** The last message, read off the pieces. */
  lemma LastMessage(messages: seq<ChatMessage>)
    requires Grouped(messages) && messages != []
    ensures var pieces, last := Flat(messages), messages[|messages| - 1];
      && pieces != []
      && (last.ToolCalls? <==> pieces[|pieces| - 1].Asked?)
      && (last.ToolCalls? ==> last.calls == Tail(pieces))
      && (!last.ToolCalls? ==> PiecesIn(last) == [pieces[|pieces| - 1]])
      && Flat(messages[..|messages| - 1]) == pieces[..|pieces| - |PiecesIn(last)|]
  {
    var rest, last := messages[..|messages| - 1], messages[|messages| - 1];
    if last.ToolCalls? {
      if rest != [] {
        LastIsNotAsked(rest);
      }
      TailOfAsked(Flat(rest), last.calls);
      AskedLength(last.calls);
    }
  }

  lemma GroupedPrefix(messages: seq<ChatMessage>)
    requires Grouped(messages) && messages != []
    ensures Grouped(messages[..|messages| - 1])
  {
  }

  lemma SamePiece(x: ChatMessage, y: ChatMessage, piece: Piece)
    requires !x.ToolCalls? && !y.ToolCalls? && PiecesIn(x) == [piece] && PiecesIn(y) == [piece]
    ensures x == y
  {
    assert PiecesIn(x)[0] == PiecesIn(y)[0];
  }

  lemma SameLast(a: seq<ChatMessage>, b: seq<ChatMessage>)
    requires Grouped(a) && Grouped(b) && Flat(a) == Flat(b) && a != [] && b != []
    ensures a[|a| - 1] == b[|b| - 1]
  {
    LastMessage(a);
    LastMessage(b);
    var x, y := a[|a| - 1], b[|b| - 1];
    if !x.ToolCalls? {
      SamePiece(x, y, Flat(a)[|Flat(a)| - 1]);
    }
  }

  lemma SameRest(a: seq<ChatMessage>, b: seq<ChatMessage>)
    requires Grouped(a) && Grouped(b) && Flat(a) == Flat(b) && a != [] && b != [] && a[|a| - 1] == b[|b| - 1]
    ensures Flat(a[..|a| - 1]) == Flat(b[..|b| - 1])
  {
    LastMessage(a);
    LastMessage(b);
  }

  /** Two grouped conversations with the same parts are the same messages. */
  lemma {:induction false} GroupingIsUnique(a: seq<ChatMessage>, b: seq<ChatMessage>)
    requires Grouped(a) && Grouped(b) && Flat(a) == Flat(b)
    ensures a == b
  {
    NoPiecesNoMessages(a);
    NoPiecesNoMessages(b);
    if a != [] {
      SameLast(a, b);
      SameRest(a, b);
      GroupedPrefix(a);
      GroupedPrefix(b);
      GroupingIsUnique(a[..|a| - 1], b[..|b| - 1]);
      assert a == a[..|a| - 1] + [a[|a| - 1]] && b == b[..|b| - 1] + [b[|b| - 1]];
    }
  }

  // ---------------------------------------------------------------- reading it back

  /** The one form of an item: bare words are a user message, what says nothing is dropped. */
  function Plainly(item: Item): seq<Item> {
    match item
    case Plain(text) => [Said("message", "user", Text(text))]
    case PassedOver => []
    case Said(kind, role, body) =>
      if body == Text("") && kind !in {"message", ""} then [] else [Said("message", role, body)]
    case _ => [item]
  }

  function AllPlainly(items: seq<Item>): seq<Item> {
    if items == [] then [] else AllPlainly(items[..|items| - 1]) + Plainly(items[|items| - 1])
  }

  function CallItems(calls: seq<Call>): (items: seq<Item>)
    ensures |items| == |calls| && forall i | 0 <= i < |calls| :: items[i] == FunctionCall(calls[i])
  {
    if calls == [] then [] else CallItems(calls[..|calls| - 1]) + [FunctionCall(calls[|calls| - 1])]
  }

  /** A chat message as the items that would have made it. */
  function ItemsIn(m: ChatMessage): seq<Item> {
    match m
    case Says(role, body) => [Said("message", role, body)]
    case ToolCalls(calls) => CallItems(calls)
    case ToolResult(callId, output) => [FunctionOutput(callId, output)]
  }

  function ReadBack(messages: seq<ChatMessage>): seq<Item> {
    if messages == [] then [] else ReadBack(messages[..|messages| - 1]) + ItemsIn(messages[|messages| - 1])
  }

  function ItemOf(piece: Piece): Item {
    match piece
    case Spoken(role, body) => Said("message", role, body)
    case Asked(call) => FunctionCall(call)
    case Returned(callId, output) => FunctionOutput(callId, output)
  }

  function ItemsFor(pieces: seq<Piece>): seq<Item> {
    seq(|pieces|, i requires 0 <= i < |pieces| => ItemOf(pieces[i]))
  }

  lemma ItemsForBoth(a: seq<Piece>, b: seq<Piece>)
    ensures ItemsFor(a + b) == ItemsFor(a) + ItemsFor(b)
  {
  }

  lemma {:induction false} CallsReadBack(calls: seq<Call>)
    ensures ItemsFor(AllAsked(calls)) == CallItems(calls)
  {
    if calls != [] {
      CallsReadBack(calls[..|calls| - 1]);
      ItemsForBoth(AllAsked(calls[..|calls| - 1]), [Asked(calls[|calls| - 1])]);
    }
  }

  lemma {:induction false} MessagesReadBack(messages: seq<ChatMessage>)
    ensures ReadBack(messages) == ItemsFor(Flat(messages))
  {
    if messages != [] {
      var rest, last := messages[..|messages| - 1], messages[|messages| - 1];
      MessagesReadBack(rest);
      ItemsForBoth(Flat(rest), PiecesIn(last));
      if last.ToolCalls? {
        CallsReadBack(last.calls);
      }
    }
  }

  lemma {:induction false} PiecesReadBack(items: seq<Item>)
    ensures ItemsFor(PiecesOf(items)) == AllPlainly(items)
  {
    if items != [] {
      PiecesReadBack(items[..|items| - 1]);
      ItemsForBoth(PiecesOf(items[..|items| - 1]), PieceOf(items[|items| - 1]));
    }
  }

  /** The messages, read back as items, are the instructions and every item that said anything, in order, each in its
      one form; neighbouring calls share a message. One empty turn stands for nothing at all. */
  lemma TranslationReadsBack(items: seq<Item>, instructions: string, messages: seq<ChatMessage>)
    requires Translates(items, instructions, messages)
    ensures var all := (if instructions == "" then [] else [Said("message", "system", Text(instructions))]) + AllPlainly(items);
      if all == [] then messages == [Says("user", Text(""))] else ReadBack(messages) == all && Grouped(messages)
  {
    MessagesReadBack(messages);
    PiecesReadBack(items);
    ItemsForBoth(Opening(instructions), PiecesOf(items));
  }

  // ---------------------------------------------------------------- the round trip

  /** An output item, sent back as input. */
  function SentBack(item: ResponsesStream.Item): Item {
    match item
    case Message(text) => Said("message", "assistant", Text(text))
    case Function(call) => FunctionCall(call)
  }

  function AllSentBack(items: seq<ResponsesStream.Item>): seq<Item> {
    if items == [] then [] else AllSentBack(items[..|items| - 1]) + [SentBack(items[|items| - 1])]
  }

  function SaidIn(chat: Chat): seq<ChatMessage> {
    if chat.content != "" || chat.calls == [] then [Says("assistant", Text(chat.content))] else []
  }

  /** The chat turn an answer came from. */
  function Turn(chat: Chat): seq<ChatMessage> {
    SaidIn(chat) + if chat.calls != [] then [ToolCalls(chat.calls)] else []
  }

  lemma OneMoreBack(items: seq<ResponsesStream.Item>, item: ResponsesStream.Item)
    ensures PiecesOf(AllSentBack(items + [item])) == PiecesOf(AllSentBack(items)) + PieceOf(SentBack(item))
  {
    assert (items + [item])[..|items|] == items;
    var back := AllSentBack(items + [item]);
    assert back[..|back| - 1] == AllSentBack(items);
  }

  lemma Associates<T>(a: seq<T>, b: seq<T>, c: seq<T>)
    ensures a + (b + c) == a + b + c
  {
  }

  lemma FunctionsSplit(before: seq<ResponsesStream.Item>, calls: seq<Call>)
    requires calls != []
    ensures before + Functions(calls) == before + Functions(calls[..|calls| - 1]) + [Function(calls[|calls| - 1])]
  {
    var rest, last := Functions(calls[..|calls| - 1]), [Function(calls[|calls| - 1])];
    assert Functions(calls) == rest + last;
    Associates(before, rest, last);
  }

  lemma {:induction false} SentBackFunctions(before: seq<ResponsesStream.Item>, calls: seq<Call>)
    ensures PiecesOf(AllSentBack(before + Functions(calls))) == PiecesOf(AllSentBack(before)) + AllAsked(calls)
  {
    if calls == [] {
      assert before + [] == before;
    } else {
      var rest, last := calls[..|calls| - 1], calls[|calls| - 1];
      SentBackFunctions(before, rest);
      OneMoreBack(before + Functions(rest), Function(last));
      FunctionsSplit(before, calls);
    }
  }

  lemma SentBackText(text: string)
    ensures PiecesOf(AllSentBack([Message(text)])) == [Spoken("assistant", Text(text))]
  {
    assert [Message(text)][..0] == [];
    assert AllSentBack([Message(text)]) == [SentBack(Message(text))];
    assert [SentBack(Message(text))][..0] == [];
  }

  lemma PiecesBack(chat: Chat)
    ensures PiecesOf(AllSentBack(AnswerOf(chat).output))
      == (if chat.content != "" || chat.calls == [] then [Spoken("assistant", Text(chat.content))] else []) + AllAsked(chat.calls)
  {
    var text := TextItem(chat.content);
    SentBackFunctions(text, chat.calls);
    SentBackText(chat.content);
    if text + Functions(chat.calls) == [] {
      assert chat.calls == [];
    }
  }

  lemma SaidIsFlat(chat: Chat)
    ensures Held(SaidIn(chat), if SaidIn(chat) == [] then [] else [Spoken("assistant", Text(chat.content))], false)
  {
    var m := Says("assistant", Text(chat.content));
    TakeMessage([], [], false, m, [Spoken("assistant", Text(chat.content))]);
    assert [] + [m] == [m];
  }

  lemma CallsAreFlat(said: seq<ChatMessage>, pieces: seq<Piece>, calls: seq<Call>)
    requires Held(said, pieces, false)
    ensures var turn := said + if calls != [] then [ToolCalls(calls)] else [];
      Grouped(turn) && Flat(turn) == pieces + AllAsked(calls)
  {
    if calls != [] {
      OneMoreMessage(said, ToolCalls(calls));
    } else {
      assert said + [] == said && pieces + [] == pieces;
    }
  }

  lemma TurnIsFlat(chat: Chat)
    ensures Grouped(Turn(chat)) && Flat(Turn(chat)) == PiecesOf(AllSentBack(AnswerOf(chat).output))
  {
    PiecesBack(chat);
    SaidIsFlat(chat);
    CallsAreFlat(SaidIn(chat), if SaidIn(chat) == [] then [] else [Spoken("assistant", Text(chat.content))], chat.calls);
  }

  /** Sending an answer's output back restores the text and the ordered list of calls: ids, names and arguments. */
  lemma RoundTrip(chat: Chat, messages: seq<ChatMessage>)
    requires Translates(AllSentBack(AnswerOf(chat).output), "", messages)
    ensures messages == Turn(chat)
  {
    TurnIsFlat(chat);
    NoPiecesNoMessages(Turn(chat));
    assert Turn(chat) != [];
    assert Opening("") + PiecesOf(AllSentBack(AnswerOf(chat).output)) == PiecesOf(AllSentBack(AnswerOf(chat).output));
    GroupingIsUnique(messages, Turn(chat));
  }
}
