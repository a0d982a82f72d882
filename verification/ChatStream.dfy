/**
 Chat completion chunks, already parsed, and the completion they add up to
 (smart-router/src/smart_router/proxy.py:92-157).

 An absent text is the empty string. A chunk without choices carries usage only.
 */
module ChatStream {
  import opened Collections
  import opened Text

  datatype CallDelta = CallDelta(index: int, id: string, name: string, arguments: string)

  datatype Chunk = NoChoices | Choice(content: string, calls: seq<CallDelta>, finish: string)

  datatype Call = Call(id: string, name: string, arguments: string)

  datatype Chat = Chat(content: string, calls: seq<Call>, finish: string)

  // ---------------------------------------------------------------- what chunks add up to

  function Merged(call: Call, d: CallDelta): Call {
    Call(Or(d.id, call.id), Or(d.name, call.name), call.arguments + d.arguments)
  }

  function MergeCall(calls: map<int, Call>, d: CallDelta): map<int, Call> {
    calls[d.index := Merged(if d.index in calls then calls[d.index] else Call("", "", ""), d)]
  }

  function MergeCalls(calls: map<int, Call>, ds: seq<CallDelta>): map<int, Call> {
    if ds == [] then calls else MergeCall(MergeCalls(calls, ds[..|ds| - 1]), ds[|ds| - 1])
  }

  function Content(chunks: seq<Chunk>): string {
    if chunks == [] then ""
    else Content(chunks[..|chunks| - 1]) + if chunks[|chunks| - 1].Choice? then chunks[|chunks| - 1].content else ""
  }

  function Calls(chunks: seq<Chunk>): map<int, Call> {
    if chunks == [] then map[]
    else
      var before := Calls(chunks[..|chunks| - 1]);
      if chunks[|chunks| - 1].Choice? then MergeCalls(before, chunks[|chunks| - 1].calls) else before
  }

  /** The finish reason of the last chunk with a choice. */
  function LastFinish(chunks: seq<Chunk>): Option<string> {
    if chunks == [] then None
    else if chunks[|chunks| - 1].Choice? then Some(chunks[|chunks| - 1].finish)
    else LastFinish(chunks[..|chunks| - 1])
  }

  // ---------------------------------------------------------------- in index order

  predicate Ascending(s: seq<int>) {
    forall i, j | 0 <= i < j < |s| :: s[i] < s[j]
  }

  lemma {:induction false} SmallestExists(keys: set<int>) returns (m: int)
    requires keys != {}
    ensures m in keys && forall k | k in keys :: m <= k
  {
    var x := Element(keys);
    m := x;
    var others := keys - {x};
    if others != {} {
      var n := SmallestExists(others);
      forall k | k in keys ensures n <= k || x <= k {
        assert k == x || k in others;
      }
      if n < x {
        m := n;
      }
    } else {
      assert keys == {x};
    }
  }

  lemma SmallestIsThere(keys: set<int>)
    requires keys != {}
    ensures exists m :: m in keys && forall k | k in keys :: m <= k
  {
    var m := SmallestExists(keys);
  }

  lemma Leads(m: int, rest: seq<int>, keys: set<int>)
    requires m in keys && Ascending(rest)
    requires (forall k :: k in rest <==> k in keys - {m}) && forall k | k in keys :: m <= k
    ensures Ascending([m] + rest) && forall k :: k in [m] + rest <==> k in keys
  {
    forall i | 0 <= i < |rest| ensures m < rest[i] {
      assert rest[i] in rest;
    }
  }

  /** sorted(): each key once, in ascending order. */
  function Sorted(keys: set<int>): (s: seq<int>)
    ensures Ascending(s) && forall k :: k in s <==> k in keys
  {
    if keys == {} then [] else
    SmallestIsThere(keys);
    var m :| m in keys && forall k | k in keys :: m <= k;
    var rest := Sorted(keys - {m});
    Leads(m, rest, keys);
    [m] + rest
  }

  /** Two ascending lists of the same keys are one list. */
  lemma {:induction false} AscendingIsUnique(a: seq<int>, b: seq<int>)
    requires Ascending(a) && Ascending(b) && forall k :: k in a <==> k in b
    ensures a == b
  {
    EmptyTogether(a, b);
    if a != [] {
      var x := a[0];
      assert x in b;
      var y := b[0];
      assert y in a;
      var rest, rest' := a[1..], b[1..];
      assert a == [x] + rest && b == [y] + rest';
      forall k ensures k in rest <==> k in rest' {
        assert k in rest <==> k in a && k != x;
        assert k in rest' <==> k in b && k != y;
      }
      AscendingIsUnique(rest, rest');
    }
  }

  lemma EmptyTogether(a: seq<int>, b: seq<int>)
    requires forall k :: k in a <==> k in b
    ensures a == [] <==> b == []
  {
    if a != [] { var k := a[0]; assert k in a; assert k in b; }
    if b != [] { var k := b[0]; assert k in b; assert k in a; }
  }

  function InOrder(calls: map<int, Call>, order: seq<int>): seq<Call>
    requires forall i | 0 <= i < |order| :: order[i] in calls
  {
    seq(|order|, i requires 0 <= i < |order| => calls[order[i]])
  }

  /** The buffered completion; None when no chunk had a choice. */
  function Collapsed(chunks: seq<Chunk>): Option<Chat> {
    if LastFinish(chunks).None? then None
    else Some(Chat(Content(chunks), InOrder(Calls(chunks), Sorted(Calls(chunks).Keys)), LastFinish(chunks).value))
  }

  // ---------------------------------------------------------------- the loops

  /** _merge_tool_call: an entry is made when first named, then updated field by field. */
  method MergeToolCall(calls: map<int, Call>, d: CallDelta) returns (r: map<int, Call>)
    ensures r == MergeCall(calls, d)
  {
    var entry := if d.index in calls then calls[d.index] else Call("", "", "");
    if d.id != "" {
      entry := entry.(id := d.id);
    }
    if d.name != "" {
      entry := entry.(name := d.name);
    }
    entry := entry.(arguments := entry.arguments + d.arguments);
    r := calls[d.index := entry];
  }

  /** None when no chunk had a choice. */
  method CollapseChatStream(chunks: seq<Chunk>) returns (r: Option<Chat>)
    ensures r == Collapsed(chunks)
  {
    var content, calls, last := "", map[], None;
    for i := 0 to |chunks|
      invariant content == Content(chunks[..i]) && calls == Calls(chunks[..i]) && last == LastFinish(chunks[..i])
    {
      assert chunks[..i + 1][..i] == chunks[..i];
      if chunks[i].Choice? {
        last := Some(chunks[i].finish);
        content := content + chunks[i].content;
        var ds := chunks[i].calls;
        ghost var before := calls;
        for j := 0 to |ds|
          invariant calls == MergeCalls(before, ds[..j])
        {
          assert ds[..j + 1][..j] == ds[..j];
          calls := MergeToolCall(calls, ds[j]);
        }
        assert ds[..|ds|] == ds;
      }
    }
    assert chunks[..|chunks|] == chunks;
    if last.None? {
      return None;
    }
    return Some(Chat(content, InOrder(calls, Sorted(calls.Keys)), last.value));
  }

  // ---------------------------------------------------------------- the pieces of one call

  function PiecesIn(ds: seq<CallDelta>, index: int): string {
    if ds == [] then "" else PiecesIn(ds[..|ds| - 1], index) + if ds[|ds| - 1].index == index then ds[|ds| - 1].arguments else ""
  }

  /** The argument pieces sent for one call index, joined. */
  function Pieces(chunks: seq<Chunk>, index: int): string {
    if chunks == [] then ""
    else
      Pieces(chunks[..|chunks| - 1], index)
      + if chunks[|chunks| - 1].Choice? then PiecesIn(chunks[|chunks| - 1].calls, index) else ""
  }

  function ArgumentsOf(calls: map<int, Call>, index: int): string {
    if index in calls then calls[index].arguments else ""
  }

  lemma {:induction false} MergedPieces(calls: map<int, Call>, ds: seq<CallDelta>, index: int)
    ensures ArgumentsOf(MergeCalls(calls, ds), index) == ArgumentsOf(calls, index) + PiecesIn(ds, index)
  {
    if ds != [] {
      MergedPieces(calls, ds[..|ds| - 1], index);
    }
  }

  /** A call's arguments are its pieces joined in arrival order. */
  lemma {:induction false} CallsJoinPieces(chunks: seq<Chunk>, index: int)
    ensures ArgumentsOf(Calls(chunks), index) == Pieces(chunks, index)
  {
    if chunks != [] {
      CallsJoinPieces(chunks[..|chunks| - 1], index);
      if chunks[|chunks| - 1].Choice? {
        MergedPieces(Calls(chunks[..|chunks| - 1]), chunks[|chunks| - 1].calls, index);
      }
    }
  }

  // ---------------------------------------------------------------- what each call and the end are named

  /** The call deltas of all chunks, in order. */
  function Deltas(chunks: seq<Chunk>): seq<CallDelta> {
    if chunks == [] then []
    else Deltas(chunks[..|chunks| - 1]) + if chunks[|chunks| - 1].Choice? then chunks[|chunks| - 1].calls else []
  }

  lemma {:induction false} MergedInTwo(calls: map<int, Call>, a: seq<CallDelta>, b: seq<CallDelta>)
    ensures MergeCalls(calls, a + b) == MergeCalls(MergeCalls(calls, a), b)
  {
    if b == [] {
      assert a + b == a;
    } else {
      MergedInTwo(calls, a, b[..|b| - 1]);
      assert (a + b)[..|a + b| - 1] == a + b[..|b| - 1];
    }
  }

  lemma {:induction false} CallsMergeDeltas(chunks: seq<Chunk>)
    ensures Calls(chunks) == MergeCalls(map[], Deltas(chunks))
  {
    if chunks != [] {
      var rest, last := chunks[..|chunks| - 1], chunks[|chunks| - 1];
      CallsMergeDeltas(rest);
      MergedInTwo(map[], Deltas(rest), if last.Choice? then last.calls else []);
    }
  }

  /** The place where `index` was last given a text of this kind, if it ever was. */
  predicate LastGiven(texts: seq<string>, ds: seq<CallDelta>, index: int, text: string)
    requires |texts| == |ds|
  {
    if text == "" then forall p | 0 <= p < |ds| && ds[p].index == index :: texts[p] == ""
    else
      exists p | 0 <= p < |ds| && ds[p].index == index && texts[p] == text ::
        forall q | p < q < |ds| && ds[q].index == index :: texts[q] == ""
  }

  function IdsIn(ds: seq<CallDelta>): seq<string> {
    seq(|ds|, i requires 0 <= i < |ds| => ds[i].id)
  }

  function NamesIn(ds: seq<CallDelta>): seq<string> {
    seq(|ds|, i requires 0 <= i < |ds| => ds[i].name)
  }

  lemma GivenNext(texts: seq<string>, ds: seq<CallDelta>, index: int, before: string, d: CallDelta, text: string)
    requires |texts| == |ds| && LastGiven(texts, ds, index, before)
    ensures LastGiven(texts + [text], ds + [d], index, if d.index != index || text == "" then before else text)
  {
    var texts', ds' := texts + [text], ds + [d];
    if d.index == index && text != "" {
      assert ds'[|ds|] == d && texts'[|ds|] == text;
    } else if before != "" {
      var p :| 0 <= p < |ds| && ds[p].index == index && texts[p] == before
               && forall q | p < q < |ds| && ds[q].index == index :: texts[q] == "";
      assert ds'[p] == ds[p] && texts'[p] == texts[p];
    }
  }

  lemma {:induction false} MergedKeys(ds: seq<CallDelta>, index: int)
    ensures index in MergeCalls(map[], ds) <==> exists p :: 0 <= p < |ds| && ds[p].index == index
  {
    if ds != [] {
      var rest, last := ds[..|ds| - 1], ds[|ds| - 1];
      MergedKeys(rest, index);
      if index in MergeCalls(map[], rest) {
        var p :| 0 <= p < |rest| && rest[p].index == index;
        assert ds[p].index == index;
      } else if last.index == index {
        assert ds[|rest|].index == index;
      }
    }
  }

  function IdOf(calls: map<int, Call>, index: int): string {
    if index in calls then calls[index].id else ""
  }

  function NameOf(calls: map<int, Call>, index: int): string {
    if index in calls then calls[index].name else ""
  }

  lemma {:induction false} MergedIds(ds: seq<CallDelta>, index: int)
    ensures LastGiven(IdsIn(ds), ds, index, IdOf(MergeCalls(map[], ds), index))
  {
    if ds != [] {
      var rest, last := ds[..|ds| - 1], ds[|ds| - 1];
      MergedIds(rest, index);
      assert ds == rest + [last] && IdsIn(ds) == IdsIn(rest) + [last.id];
      GivenNext(IdsIn(rest), rest, index, IdOf(MergeCalls(map[], rest), index), last, last.id);
    }
  }

  lemma {:induction false} MergedNames(ds: seq<CallDelta>, index: int)
    ensures LastGiven(NamesIn(ds), ds, index, NameOf(MergeCalls(map[], ds), index))
  {
    if ds != [] {
      var rest, last := ds[..|ds| - 1], ds[|ds| - 1];
      MergedNames(rest, index);
      assert ds == rest + [last] && NamesIn(ds) == NamesIn(rest) + [last.name];
      GivenNext(NamesIn(rest), rest, index, NameOf(MergeCalls(map[], rest), index), last, last.name);
    }
  }

  /** A call is there exactly when some delta names its index; its id and its name are the last ones given for it. */
  lemma CallsTakeLastNames(chunks: seq<Chunk>, index: int)
    ensures var ds, calls := Deltas(chunks), Calls(chunks);
      && (index in calls <==> exists p :: 0 <= p < |ds| && ds[p].index == index)
      && LastGiven(IdsIn(ds), ds, index, IdOf(calls, index)) && LastGiven(NamesIn(ds), ds, index, NameOf(calls, index))
  {
    CallsMergeDeltas(chunks);
    MergedKeys(Deltas(chunks), index);
    MergedIds(Deltas(chunks), index);
    MergedNames(Deltas(chunks), index);
  }

  /** The finish reason is that of the last chunk with a choice, and there is none exactly when there is no such chunk. */
  lemma {:induction false} FinishIsLastChoice(chunks: seq<Chunk>)
    ensures LastFinish(chunks).None? <==> forall i | 0 <= i < |chunks| :: chunks[i].NoChoices?
    ensures LastFinish(chunks).Some? ==>
      exists i | 0 <= i < |chunks| && chunks[i].Choice? && chunks[i].finish == LastFinish(chunks).value ::
        forall j | i < j < |chunks| :: chunks[j].NoChoices?
  {
    if chunks != [] {
      var rest := chunks[..|chunks| - 1];
      FinishIsLastChoice(rest);
      if chunks[|chunks| - 1].NoChoices? && LastFinish(rest).Some? {
        var i :| 0 <= i < |rest| && rest[i].Choice? && rest[i].finish == LastFinish(rest).value
                 && forall j | i < j < |rest| :: rest[j].NoChoices?;
        assert chunks[i] == rest[i];
      }
    }
  }

  // ---------------------------------------------------------------- arrivals

  /** The chunks of all arrivals. */
  function Joined(feeds: seq<seq<Chunk>>): seq<Chunk> {
    if feeds == [] then [] else Joined(feeds[..|feeds| - 1]) + feeds[|feeds| - 1]
  }

  /** Sending the last batch again after what it belongs to. */
  lemma Twice<E>(before: seq<E>, log: seq<E>, batch: seq<E>, flushed: nat)
    requires |before| <= |log| && log[..|before|] == before && flushed <= |before|
    requires |log| - |batch| == flushed && log[flushed..] == batch
    ensures before + batch == log[..|before|] + log[flushed..]
    ensures before + batch == log <==> flushed == |before|
  {
    if flushed == |before| {
      assert log == log[..flushed] + log[flushed..];
    }
  }

  lemma Continues<E>(client: seq<E>, log: seq<E>, batch: seq<E>)
    requires client <= log && |log| - |batch| == |client| && log[|client|..] == batch
    ensures client + batch == log
  {
  }
}
