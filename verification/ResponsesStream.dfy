/**
 Chat chunks as a Responses answer, streamed or buffered
 (smart-router/src/smart_router/responses.py:347-430 and 437-767, proxy.py:92-157).

 A call id that is generated because none was sent is the empty string here, so answers that agree here agree
 up to generated ids.
 */
module ResponsesStream {
  import opened Collections
  import opened ChatStream
  import opened Text

  datatype Status = Completed | Incomplete(reason: string)

  datatype Item = Message(text: string) | Function(call: Call)

  datatype Answer = Answer(status: Status, output: seq<Item>)

  function FinishState(reason: string): Status {
    if reason == "length" then Incomplete("max_output_tokens")
    else if reason == "content_filter" then Incomplete("content_filter")
    else Completed
  }

  function Functions(calls: seq<Call>): (items: seq<Item>)
    ensures |items| == |calls| && forall i | 0 <= i < |calls| :: items[i] == Function(calls[i])
  {
    if calls == [] then [] else Functions(calls[..|calls| - 1]) + [Function(calls[|calls| - 1])]
  }

  function TextItem(text: string): seq<Item> {
    if text != "" then [Message(text)] else []
  }

  // ---------------------------------------------------------------- buffered

  function AnswerOf(chat: Chat): Answer {
    var items := TextItem(chat.content) + Functions(chat.calls);
    Answer(FinishState(Or(chat.finish, "stop")), if items == [] then [Message("")] else items)
  }

  /** chat_to_responses on a completion with one choice. */
  method ChatToResponses(chat: Chat) returns (r: Answer)
    ensures r == AnswerOf(chat)
    ensures r.status == (if chat.finish == "length" then Incomplete("max_output_tokens")
                         else if chat.finish == "content_filter" then Incomplete("content_filter")
                         else Completed)
  {
    var output: seq<Item> := [];
    if chat.content != "" {
      output := output + [Message(chat.content)];
    }
    for i := 0 to |chat.calls|
      invariant output == TextItem(chat.content) + Functions(chat.calls[..i])
    {
      assert chat.calls[..i + 1][..i] == chat.calls[..i];
      output := output + [Function(chat.calls[i])];
    }
    assert chat.calls[..|chat.calls|] == chat.calls;
    if chat.content == "" && chat.calls == [] {
      output := output + [Message("")];
    }
    var status := FinishState(if chat.finish != "" then chat.finish else "stop");
    return Answer(status, output);
  }

  // ---------------------------------------------------------------- streamed

  function WithIndex(order: seq<int>, index: int): seq<int> {
    if index in order then order else order + [index]
  }

  function WithIndexes(order: seq<int>, ds: seq<CallDelta>): seq<int> {
    if ds == [] then order else WithIndex(WithIndexes(order, ds[..|ds| - 1]), ds[|ds| - 1].index)
  }

  /** The call indexes in the order they first appear. */
  function Order(chunks: seq<Chunk>): seq<int> {
    if chunks == [] then []
    else
      var before := Order(chunks[..|chunks| - 1]);
      if chunks[|chunks| - 1].Choice? then WithIndexes(before, chunks[|chunks| - 1].calls) else before
  }

  /** The last finish reason that any chunk gave, or "stop". */
  function StreamFinish(chunks: seq<Chunk>): string {
    if chunks == [] then "stop"
    else if chunks[|chunks| - 1].Choice? && chunks[|chunks| - 1].finish != "" then chunks[|chunks| - 1].finish
    else StreamFinish(chunks[..|chunks| - 1])
  }

  ghost predicate Covers(order: seq<int>, calls: map<int, Call>) {
    && Distinct(order)
    && (forall i | 0 <= i < |order| :: order[i] in calls) && forall k | k in calls :: k in order
  }

  lemma {:induction false} IndexesCover(order: seq<int>, calls: map<int, Call>, ds: seq<CallDelta>)
    requires Covers(order, calls)
    ensures Covers(WithIndexes(order, ds), MergeCalls(calls, ds))
  {
    if ds != [] {
      IndexesCover(order, calls, ds[..|ds| - 1]);
      IndexCovers(WithIndexes(order, ds[..|ds| - 1]), MergeCalls(calls, ds[..|ds| - 1]), ds[|ds| - 1]);
    }
  }

  lemma IndexCovers(order: seq<int>, calls: map<int, Call>, d: CallDelta)
    requires Covers(order, calls)
    ensures Covers(WithIndex(order, d.index), MergeCall(calls, d))
  {
    if d.index !in order {
      var more := order + [d.index];
      forall k | k in MergeCall(calls, d) ensures k in more {
        assert k in more <==> k in order || k == d.index;
      }
    }
  }

  lemma {:induction false} OrderCovers(chunks: seq<Chunk>)
    ensures Covers(Order(chunks), Calls(chunks))
  {
    if chunks != [] {
      OrderCovers(chunks[..|chunks| - 1]);
      if chunks[|chunks| - 1].Choice? {
        IndexesCover(Order(chunks[..|chunks| - 1]), Calls(chunks[..|chunks| - 1]), chunks[|chunks| - 1].calls);
      }
    }
  }

  /** The answer of a stream that has seen these parts. */
  function StreamedAnswer(text: string, order: seq<int>, calls: map<int, Call>, finish: string): Answer
    requires Covers(order, calls)
  {
    Answer(FinishState(finish), TextItem(text) + Functions(InOrder(calls, order)))
  }

  function Streamed(chunks: seq<Chunk>): Answer {
    OrderCovers(chunks);
    StreamedAnswer(Content(chunks), Order(chunks), Calls(chunks), StreamFinish(chunks))
  }

  // ---------------------------------------------------------------- agreement

  /** Something was said or called. */
  predicate NonEmpty(chunks: seq<Chunk>) {
    Content(chunks) != "" || Order(chunks) != []
  }

  /** First appearance is index order exactly when the indexes first appear in ascending order. */
  lemma OrderIsSorted(chunks: seq<Chunk>)
    ensures Order(chunks) == Sorted(Calls(chunks).Keys) <==> Ascending(Order(chunks))
  {
    OrderCovers(chunks);
    if Ascending(Order(chunks)) {
      AscendingIsUnique(Order(chunks), Sorted(Calls(chunks).Keys));
    }
  }

  /** The same items, streamed or buffered, whenever the answer is not empty and the tool indexes first appear in
      ascending order. */
  lemma OutputsAgree(chunks: seq<Chunk>)
    requires LastFinish(chunks).Some? && NonEmpty(chunks) && Ascending(Order(chunks))
    ensures Streamed(chunks).output == AnswerOf(Collapsed(chunks).value).output
  {
    OrderCovers(chunks);
    OrderIsSorted(chunks);
    if Order(chunks) != [] {
      assert Functions(InOrder(Calls(chunks), Order(chunks)))[0] == Function(InOrder(Calls(chunks), Order(chunks))[0]);
    }
  }

  /** An answer with nothing in it differs: the stream reports no items, the buffer one empty message. */
  lemma EmptyAnswersDiffer(chunks: seq<Chunk>)
    requires LastFinish(chunks).Some? && !NonEmpty(chunks)
    ensures Streamed(chunks).output == [] && AnswerOf(Collapsed(chunks).value).output == [Message("")]
  {
    OrderCovers(chunks);
    EmptyTogether(Order(chunks), Sorted(Calls(chunks).Keys));
  }

  ghost predicate SameCalls(calls: map<int, Call>, a: seq<int>, b: seq<int>) {
    |a| == |b| && forall j | 0 <= j < |a| && a[j] in calls && b[j] in calls :: calls[a[j]] == calls[b[j]]
  }

  /** The calls in the order they began are, one by one, the calls in index order. */
  ghost predicate CallsMatch(chunks: seq<Chunk>) {
    SameCalls(Calls(chunks), Order(chunks), Sorted(Calls(chunks).Keys))
  }

  lemma SameCallsSameItems(calls: map<int, Call>, a: seq<int>, b: seq<int>)
    requires forall i | 0 <= i < |a| :: a[i] in calls
    requires forall i | 0 <= i < |b| :: b[i] in calls
    ensures SameCalls(calls, a, b) <==> Functions(InOrder(calls, a)) == Functions(InOrder(calls, b))
  {
    var x, y := Functions(InOrder(calls, a)), Functions(InOrder(calls, b));
    if |a| == |b| {
      forall j | 0 <= j < |a| ensures x[j] == y[j] <==> calls[a[j]] == calls[b[j]] {
        assert x[j] == Function(calls[a[j]]) && y[j] == Function(calls[b[j]]);
      }
    }
  }

  /** The items are equal if and only if something was said or called, and the calls in the order they began are,
      one by one, the calls in index order. */
  lemma OutputsAgreeExactly(chunks: seq<Chunk>)
    requires LastFinish(chunks).Some?
    ensures Streamed(chunks).output == AnswerOf(Collapsed(chunks).value).output <==> NonEmpty(chunks) && CallsMatch(chunks)
  {
    OrderCovers(chunks);
    SameCallsSameItems(Calls(chunks), Order(chunks), Sorted(Calls(chunks).Keys));
    var order, sorted, calls := Order(chunks), Sorted(Calls(chunks).Keys), Calls(chunks);
    var text, a, b := TextItem(Content(chunks)), Functions(InOrder(calls, order)), Functions(InOrder(calls, sorted));
    EmptyTogether(order, sorted);
    if !NonEmpty(chunks) {
      EmptyAnswersDiffer(chunks);
    } else {
      assert text + b != [];
      assert (text + a)[|text|..] == a && (text + b)[|text|..] == b;
    }
  }

  /** Two different calls never look alike: then the calls match exactly when their indexes first appear in
      ascending order. */
  lemma DistinctCallsMustAscend(chunks: seq<Chunk>)
    requires forall k, l | k in Calls(chunks) && l in Calls(chunks) && Calls(chunks)[k] == Calls(chunks)[l] :: k == l
    ensures CallsMatch(chunks) <==> Ascending(Order(chunks))
  {
    OrderCovers(chunks);
    OrderIsSorted(chunks);
    var order, sorted := Order(chunks), Sorted(Calls(chunks).Keys);
    if CallsMatch(chunks) {
      forall j | 0 <= j < |order| ensures order[j] == sorted[j] {
        assert order[j] in Calls(chunks) && sorted[j] in sorted && sorted[j] in Calls(chunks).Keys;
      }
      assert order == sorted;
    }
  }

  lemma {:induction false} FinishOfLast(chunks: seq<Chunk>)
    requires LastFinish(chunks).Some? && LastFinish(chunks).value != ""
    ensures StreamFinish(chunks) == LastFinish(chunks).value
  {
    if chunks[|chunks| - 1].NoChoices? {
      FinishOfLast(chunks[..|chunks| - 1]);
    }
  }

  /** A chunk that gives no finish reason. */
  predicate Silent(chunk: Chunk) {
    chunk.Choice? ==> chunk.finish == ""
  }

  /** The last finish reason given, or "stop" when none was. */
  predicate FinishedBy(chunks: seq<Chunk>, reason: string) {
    || (reason == "stop" && forall i | 0 <= i < |chunks| :: Silent(chunks[i]))
    || exists i | 0 <= i < |chunks| && !Silent(chunks[i]) && chunks[i].finish == reason ::
         forall j | i < j < |chunks| :: Silent(chunks[j])
  }

  lemma {:induction false} StreamFinishIs(chunks: seq<Chunk>, reason: string)
    ensures FinishedBy(chunks, reason) <==> reason == StreamFinish(chunks)
  {
    if chunks != [] {
      var rest, last := chunks[..|chunks| - 1], chunks[|chunks| - 1];
      StreamFinishIs(rest, reason);
      if Silent(last) {
        FinishedNext(rest, last, reason);
        assert chunks == rest + [last];
      } else if last.finish == reason {
        assert chunks[|rest|] == last && !Silent(last);
      }
    }
  }

  lemma FinishedNext(chunks: seq<Chunk>, last: Chunk, reason: string)
    requires Silent(last)
    ensures FinishedBy(chunks + [last], reason) <==> FinishedBy(chunks, reason)
  {
    var more := chunks + [last];
    if i :| 0 <= i < |chunks| && !Silent(chunks[i]) && chunks[i].finish == reason && forall j | i < j < |chunks| :: Silent(chunks[j]) {
      assert more[i] == chunks[i];
    }
    if i :| 0 <= i < |more| && !Silent(more[i]) && more[i].finish == reason && forall j | i < j < |more| :: Silent(more[j]) {
      assert more[i] == chunks[i];
      forall j | i < j < |chunks| ensures Silent(chunks[j]) {
        assert more[j] == chunks[j];
      }
    }
    if forall i | 0 <= i < |more| :: Silent(more[i]) {
      forall i | 0 <= i < |chunks| ensures Silent(chunks[i]) {
        assert more[i] == chunks[i];
      }
    }
  }

  /** The streamed status, told by the last finish reason any chunk gave. */
  lemma StreamStatusTells(chunks: seq<Chunk>)
    ensures Streamed(chunks).status == Incomplete("max_output_tokens") <==> FinishedBy(chunks, "length")
    ensures Streamed(chunks).status == Incomplete("content_filter") <==> FinishedBy(chunks, "content_filter")
    ensures Streamed(chunks).status.Completed? <==> !FinishedBy(chunks, "length") && !FinishedBy(chunks, "content_filter")
  {
    StreamFinishIs(chunks, "length");
    StreamFinishIs(chunks, "content_filter");
  }

  /** The same status exactly when the last choice gives the finish reason or the reason kept from before means
      completion anyway. */
  lemma StatusesAgreeExactly(chunks: seq<Chunk>)
    requires LastFinish(chunks).Some?
    ensures Streamed(chunks).status == AnswerOf(Collapsed(chunks).value).status
      <==> LastFinish(chunks).value != "" || FinishState(StreamFinish(chunks)).Completed?
  {
    if LastFinish(chunks).value != "" {
      FinishOfLast(chunks);
    }
  }
}
