// The string operations of Go's strings package that the identifiers use, over
// one-character separators, with the facts about them the codecs need.
module Text {
  import opened Base

  predicate HasPrefix(s: string, prefix: string) {
    prefix <= s
  }

  function First(s: string, c: char): (i: Option<nat>)
    ensures i.Some? ==> i.value < |s| && s[i.value] == c && c !in s[..i.value]
    ensures i.None? <==> c !in s
  {
    if s == "" then None
    else if s[0] == c then Some(0)
    else
      var rest := First(s[1..], c);
      if rest.None? then None
      else
        assert s[..rest.value + 1] == [s[0]] + s[1..][..rest.value];
        Some(rest.value + 1)
  }

  function Last(s: string, c: char): (i: Option<nat>)
    ensures i.Some? ==> i.value < |s| && s[i.value] == c && c !in s[i.value + 1..]
    ensures i.None? <==> c !in s
  {
    if s == "" then None
    else
      var n := |s| - 1;
      assert s == s[..n] + [s[n]];
      if s[n] == c then Some(n)
      else
        var i := Last(s[..n], c);
        assert i.Some? ==> s[i.value + 1..] == s[..n][i.value + 1..] + [s[n]];
        i
  }

  /** strings.Split; it never returns an empty list. */
  function Split(s: string, c: char): (parts: seq<string>)
    ensures |parts| > 0
    decreases |s|
  {
    var i := First(s, c);
    if i.None? then [s] else [s[..i.value]] + Split(s[i.value + 1..], c)
  }

  /** strings.Join. */
  function Join(parts: seq<string>, c: char): string
    requires |parts| > 0
  {
    if |parts| == 1 then parts[0] else parts[0] + [c] + Join(parts[1..], c)
  }

  lemma {:induction false} FirstAt(a: string, c: char, b: string)
    requires c !in a
    ensures First(a + [c] + b, c) == Some(|a|)
  {
    if a != "" {
      assert (a + [c] + b)[1..] == a[1..] + [c] + b;
      FirstAt(a[1..], c, b);
    }
  }

  lemma {:induction false} LastAt(a: string, c: char, b: string)
    requires c !in b
    ensures Last(a + [c] + b, c) == Some(|a|)
  {
    var s := a + [c] + b;
    if b != "" {
      assert s[..|s| - 1] == a + [c] + b[..|b| - 1];
      assert s[|s| - 1] == b[|b| - 1];
      LastAt(a, c, b[..|b| - 1]);
    }
  }

  lemma {:induction false} SplitWhole(s: string, c: char)
    requires c !in s
    ensures Split(s, c) == [s]
  {}

  lemma SplitStep(a: string, c: char, b: string)
    requires c !in a
    ensures Split(a + [c] + b, c) == [a] + Split(b, c)
  {
    FirstAt(a, c, b);
    var s := a + [c] + b;
    assert s[..|a|] == a && s[|a| + 1..] == b;
  }

  lemma {:induction false} JoinSplit(s: string, c: char)
    ensures Join(Split(s, c), c) == s
    decreases |s|
  {
    var i := First(s, c);
    if i.Some? {
      JoinSplit(s[i.value + 1..], c);
      assert Split(s, c)[1..] == Split(s[i.value + 1..], c);
      assert s == s[..i.value] + [c] + s[i.value + 1..];
    }
  }

  lemma CutFirst(a: string, c: char) returns (h: string, t: string)
    requires c in a
    ensures a == h + [c] + t && c !in h
  {
    var i := First(a, c).value;
    h, t := a[..i], a[i + 1..];
  }

  lemma {:induction false} SplitAppend(a: string, c: char, b: string)
    ensures Split(a + [c] + b, c) == Split(a, c) + Split(b, c)
    decreases |a|
  {
    if c !in a {
      SplitStep(a, c, b);
    } else {
      var h, t := CutFirst(a, c);
      SplitAppend(t, c, b);
      SplitStep(h, c, t);
      SplitPrepend(h, c, t, b);
    }
  }

  lemma Assoc<T>(a: seq<T>, b: seq<T>, c: seq<T>)
    ensures a + (b + c) == a + b + c
  {}

  lemma SplitPrepend(h: string, c: char, t: string, b: string)
    requires c !in h && Split(h + [c] + t, c) == [h] + Split(t, c)
    requires Split(t + [c] + b, c) == Split(t, c) + Split(b, c)
    ensures Split(h + [c] + t + [c] + b, c) == Split(h + [c] + t, c) + Split(b, c)
  {
    var whole := h + [c] + t + [c] + b;
    assert whole == h + [c] + (t + [c] + b) by {
      Assoc(h + [c] + t, [c], b);
      Assoc(h + [c], t, [c] + b);
      Assoc(t, [c], b);
    }
    calc {
      Split(whole, c);
    == { SplitStep(h, c, t + [c] + b); }
      [h] + Split(t + [c] + b, c);
    ==
      [h] + (Split(t, c) + Split(b, c));
    == { Assoc([h], Split(t, c), Split(b, c)); }
      [h] + Split(t, c) + Split(b, c);
    }
  }

  /** The pieces of a split never hold the separator. */
  lemma {:induction false} SplitPieces(s: string, c: char)
    ensures forall p | p in Split(s, c) :: c !in p
    decreases |s|
  {
    var i := First(s, c);
    if i.Some? {
      SplitPieces(s[i.value + 1..], c);
    }
  }

  /** Splitting off the last piece. */
  lemma {:induction false} JoinInit(parts: seq<string>, c: char)
    requires |parts| > 1
    ensures Join(parts, c) == Join(parts[..|parts| - 1], c) + [c] + parts[|parts| - 1]
  {
    var n := |parts| - 1;
    if n > 1 {
      JoinInit(parts[1..], c);
      assert parts[1..][..n - 1] == parts[..n][1..];
      assert Join(parts, c) == parts[0] + [c] + (Join(parts[..n][1..], c) + [c] + parts[n]);
    }
  }
}
