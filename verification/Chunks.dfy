/**
 Cutting a document into overlapping windows (smart-router/src/smart_router/knowledge_v51.py:22-38).
 */
module Chunks {
  import opened Text

  datatype Window = Window(start: nat, end: nat)

  predicate At(text: string, pattern: string, i: int) {
    0 <= i && i + |pattern| <= |text| && text[i..i + |pattern|] == pattern
  }

  /** text.rfind(pattern, low, end): the last place where the pattern lies within the bounds, or -1. */
  function RFind(text: string, pattern: string, low: nat, end: nat): (r: int)
    requires end <= |text| && pattern != ""
    ensures r == -1 || (low <= r && r + |pattern| <= end && At(text, pattern, r))
    ensures forall i | low <= i && i + |pattern| <= end && i > r :: !At(text, pattern, i)
    decreases end
  {
    if end < low + |pattern| then -1
    else if text[end - |pattern|..end] == pattern then end - |pattern|
    else assert !At(text, pattern, end - |pattern|); RFind(text, pattern, low, end - 1)
  }

  /** Windows that start at 0, leave no gap, are at most `size` long and start at least `step` apart. */
  ghost predicate Chain(windows: seq<Window>, length: nat, size: nat, step: nat) {
    && (windows != [] ==> windows[0].start == 0)
    && (forall i | 0 <= i < |windows| :: windows[i].start < windows[i].end <= length && windows[i].end - windows[i].start <= size)
    && (forall i | 0 <= i < |windows| - 1 :: windows[i].start + step <= windows[i + 1].start <= windows[i].end)
  }

  /** A chain that reaches the end. */
  ghost predicate Covering(windows: seq<Window>, length: nat, size: nat, step: nat) {
    Chain(windows, length, size, step) && windows != [] && windows[|windows| - 1].end == length
  }

  /** The stripped texts of the windows, without the empty ones. */
  function Kept(text: string, windows: seq<Window>): seq<string> {
    if windows == [] then [] else
    var last := windows[|windows| - 1];
    var piece := if last.start <= last.end <= |text| then Strip(text[last.start..last.end]) else "";
    Kept(text, windows[..|windows| - 1]) + if piece != "" then [piece] else []
  }

  function Step(size: nat, overlap: nat): nat {
    if size / 2 + 1 > overlap then size / 2 + 1 - overlap else 1
  }

  /** A window may be shortened to end behind this place: a line end, or a full stop before a blank, both before `limit`. */
  predicate Breaks(text: string, i: nat, limit: nat)
    requires limit <= |text|
  {
    i < limit && (text[i] == '\n' || (i + 1 < limit && text[i] == '.' && text[i + 1] == ' '))
  }

  lemma BreaksAt(text: string, i: nat, limit: nat)
    requires limit <= |text|
    ensures Breaks(text, i, limit) <==> (At(text, "\n", i) && i + 1 <= limit) || (At(text, ". ", i) && i + 2 <= limit)
  {
    if i < limit {
      assert text[i..i + 1] == [text[i]];
      if i + 1 < limit {
        assert text[i..i + 2] == [text[i], text[i + 1]];
      }
    }
  }

  /** A window from `start` ends behind the last such place of its second half, if there is one, and else at its
      full size or the end of the text. */
  predicate EndsAt(text: string, start: nat, size: nat, end: nat)
    requires start < |text|
  {
    var middle, limit := start + size / 2, start + size;
    if |text| <= limit then end == |text|
    else
      || (start + 1 < end && middle < end <= limit && Breaks(text, end - 1, limit) && NoneFrom(text, end, middle, limit))
      || (end == limit && NoneFrom(text, start + 1, middle, limit))
  }

  /** Between `low` and `limit` no place at or behind `from_` breaks. */
  predicate NoneFrom(text: string, from_: nat, low: nat, limit: nat)
    requires limit <= |text|
  {
    forall i | from_ <= i < limit && low <= i :: !Breaks(text, i, limit)
  }

  method WindowEnd(text: string, start: nat, size: nat) returns (end: nat)
    requires start < |text| && size >= 1
    ensures start < end <= |text| && end <= start + size && EndsAt(text, start, size, end)
  {
    end := if |text| <= start + size then |text| else start + size;
    if end < |text| {
      var line := RFind(text, "\n", start + size / 2, end);
      var sentence := RFind(text, ". ", start + size / 2, end);
      var split := if line >= sentence then line else sentence;
      forall i | split < i < end && start + size / 2 <= i ensures !Breaks(text, i, end) {
        BreaksAt(text, i, end);
      }
      if split > start {
        BreaksAt(text, split, end);
        end := split + 1;
      }
    }
  }

  /** The description admits one end. */
  lemma EndIsUnique(text: string, start: nat, size: nat, a: nat, b: nat)
    requires start < |text| && size >= 1 && EndsAt(text, start, size, a) && EndsAt(text, start, size, b)
    ensures a == b
  {
  }

  function Next(w: Window, overlap: nat): int {
    if w.start + 1 >= w.end - overlap then w.start + 1 else w.end - overlap
  }

  predicate Follows(text: string, w: Window, start: nat, overlap: nat) {
    w.end < |text| && start == Next(w, overlap)
  }

  /** Every window ends where it should; the next one, if that is not the end of the text, starts `overlap` before it,
      or one further at least. */
  ghost predicate Placed(text: string, windows: seq<Window>, size: nat, overlap: nat) {
    && (forall i | 0 <= i < |windows| :: windows[i].start < |text| && EndsAt(text, windows[i].start, size, windows[i].end))
    && forall i | 0 <= i < |windows| - 1 :: windows[i].end < |text| && windows[i + 1].start == Next(windows[i], overlap)
  }

  /** For every text: the windows cover it without a gap, each in its place, and the chunks are their non-blank contents
      in order. The windows are returned only to say this. */
  method ChunkText(raw: string, size: nat, overlap: nat) returns (chunks: seq<string>, windows: seq<Window>)
    requires size >= 1
    ensures Strip(raw) == "" ==> chunks == [] && windows == []
    ensures Strip(raw) != "" ==> Covering(windows, |Strip(raw)|, size, Step(size, overlap))
    ensures Placed(Strip(raw), windows, size, overlap)
    ensures chunks == Kept(Strip(raw), windows)
  {
    var text := Strip(raw);
    chunks, windows := [], [];
    if text == "" {
      return;
    }
    var start := 0;
    while start < |text|
      invariant start < |text| && Upto(windows, start, |text|, size, overlap) && chunks == Kept(text, windows)
      invariant Placed(text, windows, size, overlap) && (windows != [] ==> Follows(text, windows[|windows| - 1], start, overlap))
      decreases |text| - start
    {
      var end := WindowEnd(text, start, size);
      var piece := Strip(text[start..end]);
      KeptMore(text, windows, start, end);
      OneMore(windows, start, end, |text|, size, overlap);
      PlacedMore(text, windows, start, end, size, overlap);
      windows := windows + [Window(start, end)];
      if piece != "" {
        chunks := chunks + [piece];
      }
      if end >= |text| {
        break;
      }
      start := if start + 1 >= end - overlap then start + 1 else end - overlap;
    }
  }

  lemma PlacedMore(text: string, windows: seq<Window>, start: nat, end: nat, size: nat, overlap: nat)
    requires Placed(text, windows, size, overlap) && start < |text| && EndsAt(text, start, size, end)
    requires windows != [] ==> Follows(text, windows[|windows| - 1], start, overlap)
    ensures Placed(text, windows + [Window(start, end)], size, overlap)
  {
  }

  /** Windows that cover the text, each in its place, are determined. */
  lemma {:induction false} WindowsAreDetermined(text: string, a: seq<Window>, b: seq<Window>, size: nat, overlap: nat, k: nat)
    requires size >= 1 && Placed(text, a, size, overlap) && Placed(text, b, size, overlap)
    requires Covering(a, |text|, size, Step(size, overlap)) && Covering(b, |text|, size, Step(size, overlap))
    requires k < |a| || k < |b|
    ensures k < |a| && k < |b| && a[k] == b[k]
  {
    if k > 0 {
      WindowsAreDetermined(text, a, b, size, overlap, k - 1);
      assert k < |a| && k < |b|;
    }
    EndIsUnique(text, a[k].start, size, a[k].end, b[k].end);
  }

  /** The windows so far, and where the next one starts. */
  ghost predicate Upto(windows: seq<Window>, start: nat, length: nat, size: nat, overlap: nat) {
    && Chain(windows, length, size, Step(size, overlap)) && (windows == [] ==> start == 0)
    && (windows != [] ==> windows[|windows| - 1].start + Step(size, overlap) <= start <= windows[|windows| - 1].end)
  }

  lemma KeptMore(text: string, windows: seq<Window>, start: nat, end: nat)
    requires start <= end <= |text|
    ensures var piece := Strip(text[start..end]);
      Kept(text, windows + [Window(start, end)]) == Kept(text, windows) + if piece != "" then [piece] else []
  {
    assert (windows + [Window(start, end)])[..|windows|] == windows;
  }

  /** One window more: the next starts far enough on, and not past its end. */
  lemma OneMore(windows: seq<Window>, start: nat, end: nat, length: nat, size: nat, overlap: nat)
    requires start < end <= length && end - start <= size && Upto(windows, start, length, size, overlap)
    ensures var more := windows + [Window(start, end)];
      && Chain(more, length, size, Step(size, overlap))
      && (end >= start + size / 2 + 1 ==>
            Upto(more, if start + 1 >= end - overlap then start + 1 else end - overlap, length, size, overlap))
  {
    Longer(windows, start, end, length, size, Step(size, overlap));
  }

  lemma Longer(windows: seq<Window>, start: nat, end: nat, length: nat, size: nat, step: nat)
    requires start < end <= length && end - start <= size && Chain(windows, length, size, step)
    requires windows == [] ==> start == 0
    requires windows != [] ==> windows[|windows| - 1].start + step <= start <= windows[|windows| - 1].end
    ensures Chain(windows + [Window(start, end)], length, size, step)
  {
  }

  // ---------------------------------------------------------------- what covering gives

  /** Every index lies in some window. */
  lemma {:induction false} NothingIsLost(windows: seq<Window>, length: nat, size: nat, step: nat, i: nat) returns (k: nat)
    requires Covering(windows, length, size, step) && i < length
    ensures k < |windows| && windows[k].start <= i < windows[k].end
  {
    k := 0;
    while windows[k].end <= i
      invariant k < |windows| && windows[k].start <= i
      decreases |windows| - k
    {
      k := k + 1;
    }
  }

  lemma {:induction false} StartsSpread(windows: seq<Window>, length: nat, size: nat, step: nat, k: nat)
    requires Covering(windows, length, size, step) && k < |windows|
    ensures step * k <= windows[k].start
  {
    if k > 0 {
      StartsSpread(windows, length, size, step, k - 1);
    }
  }

  /** With the default sizes there are at most ceil(length / 681) windows, each at most 1800 long. */
  lemma DefaultsBoundTheCount(windows: seq<Window>, length: nat)
    requires Covering(windows, length, 1800, Step(1800, 220))
    ensures 681 * (|windows| - 1) < length
    ensures |windows| <= (length + 680) / 681
  {
    StartsSpread(windows, length, 1800, 681, |windows| - 1);
  }

  lemma {:induction false} PieceIsKept(text: string, windows: seq<Window>, k: nat)
    requires k < |windows| && windows[k].start <= windows[k].end <= |text|
    requires Strip(text[windows[k].start..windows[k].end]) != ""
    ensures Strip(text[windows[k].start..windows[k].end]) in Kept(text, windows)
  {
    if k < |windows| - 1 {
      PieceIsKept(text, windows[..|windows| - 1], k);
    }
  }

  /** No visible character of the document is lost: it is inside a window that became a chunk. */
  lemma EveryWordIsKept(text: string, windows: seq<Window>, size: nat, step: nat, i: nat) returns (k: nat)
    requires Covering(windows, |text|, size, step) && i < |text| && !IsSpace(text[i])
    ensures k < |windows| && windows[k].start <= i < windows[k].end <= |text|
    ensures text[i] in Strip(text[windows[k].start..windows[k].end])
    ensures Strip(text[windows[k].start..windows[k].end]) in Kept(text, windows)
  {
    k := NothingIsLost(windows, |text|, size, step, i);
    var piece := text[windows[k].start..windows[k].end];
    assert piece[i - windows[k].start] == text[i];
    StripKeeps(piece, text[i]);
    PieceIsKept(text, windows, k);
  }
}
