/**
 The string operations that the modelled files share: Python's strip() over ASCII whitespace, and s[:n].
 */
module Text {

  predicate IsSpace(c: char) {
    c == ' ' || '\t' <= c <= '\r' || '\U{1c}' <= c <= '\U{1f}'
  }

  function StripLeft(s: string): string {
    if s != "" && IsSpace(s[0]) then StripLeft(s[1..]) else s
  }

  function StripRight(s: string): string {
    if s != "" && IsSpace(s[|s| - 1]) then StripRight(s[..|s| - 1]) else s
  }

  function Strip(s: string): string {
    StripRight(StripLeft(s))
  }

  function Cut(s: string, n: nat): string {
    if |s| <= n then s else s[..n]
  }

  function Or(first: string, second: string): string {
    if first != "" then first else second
  }

  predicate Trimmed(s: string) {
    s == "" || (!IsSpace(s[0]) && !IsSpace(s[|s| - 1]))
  }

  lemma {:induction false} StripLeftLeads(s: string)
    ensures StripLeft(s) == "" || !IsSpace(StripLeft(s)[0])
    ensures |StripLeft(s)| <= |s|
  {
    if s != "" && IsSpace(s[0]) {
      StripLeftLeads(s[1..]);
    }
  }

  lemma {:induction false} StripRightEnds(s: string)
    ensures StripRight(s) <= s
    ensures StripRight(s) == "" || !IsSpace(StripRight(s)[|StripRight(s)| - 1])
  {
    if s != "" && IsSpace(s[|s| - 1]) {
      StripRightEnds(s[..|s| - 1]);
    }
  }

  /** Stripping trims, and leaves exactly the trimmed strings alone. */
  lemma StripTrims(s: string)
    ensures Trimmed(Strip(s))
    ensures Strip(s) == s <==> Trimmed(s)
  {
    StripLeftLeads(s);
    StripRightEnds(StripLeft(s));
  }

  lemma StripShortens(s: string)
    ensures |Strip(s)| <= |s|
  {
    StripLeftLeads(s);
    StripRightEnds(StripLeft(s));
  }

  lemma {:induction false} StripLeftKeeps(s: string, c: char)
    requires c in s && !IsSpace(c)
    ensures c in StripLeft(s)
  {
    if IsSpace(s[0]) {
      assert s == [s[0]] + s[1..];
      StripLeftKeeps(s[1..], c);
    }
  }

  lemma {:induction false} StripRightKeeps(s: string, c: char)
    requires c in s && !IsSpace(c)
    ensures c in StripRight(s)
  {
    if IsSpace(s[|s| - 1]) {
      assert s == s[..|s| - 1] + [s[|s| - 1]];
      StripRightKeeps(s[..|s| - 1], c);
    }
  }

  /** Stripping loses no visible character. */
  lemma StripKeeps(s: string, c: char)
    requires c in s && !IsSpace(c)
    ensures c in Strip(s)
  {
    StripLeftKeeps(s, c);
    StripRightKeeps(StripLeft(s), c);
  }

  lemma CutIsPrefix(s: string, n: nat)
    ensures Cut(s, n) <= s && |Cut(s, n)| == if |s| <= n then |s| else n
  {
  }

  lemma {:induction false} StripLeftIsSuffix(s: string) returns (i: nat)
    ensures i <= |s| && StripLeft(s) == s[i..] && forall k | 0 <= k < i :: IsSpace(s[k])
  {
    i := 0;
    if s != "" && IsSpace(s[0]) {
      var j := StripLeftIsSuffix(s[1..]);
      i := j + 1;
      forall k | 0 <= k < i ensures IsSpace(s[k]) {
        if k > 0 {
          assert s[1..][k - 1] == s[k];
        }
      }
    }
  }

  lemma {:induction false} StripRightIsPrefix(s: string) returns (j: nat)
    ensures j <= |s| && StripRight(s) == s[..j] && forall k | j <= k < |s| :: IsSpace(s[k])
  {
    j := |s|;
    if s != "" && IsSpace(s[|s| - 1]) {
      j := StripRightIsPrefix(s[..|s| - 1]);
    }
  }

  /** What stripping leaves is a stretch of the text with nothing but blanks around it. */
  lemma StripIsMiddle(s: string) returns (i: nat, j: nat)
    ensures i <= j <= |s| && Strip(s) == s[i..j] && Trimmed(Strip(s))
    ensures forall k | 0 <= k < i || j <= k < |s| :: IsSpace(s[k])
  {
    i := StripLeftIsSuffix(s);
    var m := StripRightIsPrefix(StripLeft(s));
    j := i + m;
    forall k | j <= k < |s| ensures IsSpace(s[k]) {
      assert StripLeft(s)[k - i] == s[k];
    }
    StripTrims(s);
  }
}
