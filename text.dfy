/** The parts of Go's `strings` package the core relies on, for a single
    separator character: `strings.Split`, the count of separators, and the
    first and last index of a character. */
module Text {

  /** Number of occurrences of `c` in `s`. */
  function Count(s: string, c: char): (n: nat)
    ensures n == 0 <==> c !in s
  {
    if s == [] then 0 else (if s[0] == c then 1 else 0) + Count(s[1..], c)
  }

  /** Occurrences in a concatenation add up. */
  lemma {:induction false} CountConcat(a: string, b: string, c: char)
    ensures Count(a + b, c) == Count(a, c) + Count(b, c)
  {
    if a != [] {
      assert (a + b)[1..] == a[1..] + b;
      CountConcat(a[1..], b, c);
    } else {
      assert a + b == b;
    }
  }

  /** Index of the first `c` in `s` (Go: `strings.IndexByte`). */
  function IndexOf(s: string, c: char): (i: nat)
    requires c in s
    ensures i < |s| && s[i] == c && c !in s[..i]
  {
    if s[0] == c then 0 else 1 + IndexOf(s[1..], c)
  }

  /** Index of the last `c` in `s`, or -1 when there is none
      (Go: `strings.LastIndex` with a one-byte separator). */
  function LastIndexOf(s: string, c: char): (i: int)
    ensures -1 <= i < |s|
    ensures i == -1 <==> c !in s
    ensures 0 <= i ==> s[i] == c && c !in s[i + 1..]
  {
    if |s| == 0 then -1
    else if s[|s| - 1] == c then |s| - 1
    else LastIndexOf(s[..|s| - 1], c)
  }

  /** The occurrences after the first are one fewer than all of them. */
  lemma CountAfterFirst(s: string, c: char)
    requires c in s
    ensures Count(s, c) == 1 + Count(s[IndexOf(s, c) + 1..], c)
  {
    var i := IndexOf(s, c);
    assert s == s[..i] + ([c] + s[i + 1..]);
    CountConcat(s[..i], [c] + s[i + 1..], c);
    assert ([c] + s[i + 1..])[1..] == s[i + 1..];
  }

  /** Go's `strings.Split(s, string(c))`: the pieces of `s` between the
      occurrences of `c`; the empty string gives one empty piece. */
  function Split(s: string, c: char): (parts: seq<string>)
    ensures |parts| == Count(s, c) + 1
    ensures forall k :: 0 <= k < |parts| ==> c !in parts[k]
    decreases |s|
  {
    if c !in s then [s]
    else
      var i := IndexOf(s, c);
      CountAfterFirst(s, c);
      [s[..i]] + Split(s[i + 1..], c)
  }

  /** Go's `strings.Join(parts, string(c))`, the inverse of `Split`. */
  function Join(parts: seq<string>, c: char): string
    requires |parts| > 0
  {
    if |parts| == 1 then parts[0] else parts[0] + [c] + Join(parts[1..], c)
  }

  /** Splitting and joining again gives back the original string, so `Split`
      loses nothing. */
  lemma {:induction false} JoinSplit(s: string, c: char)
    ensures Join(Split(s, c), c) == s
    decreases |s|
  {
    if c in s {
      var i := IndexOf(s, c);
      JoinSplit(s[i + 1..], c);
      assert s == s[..i] + [c] + s[i + 1..];
    }
  }

  /** A string with exactly one separator splits into the text before it and
      the text after it. */
  lemma {:induction false} SplitAround(a: string, b: string, c: char)
    requires c !in a && c !in b
    ensures Split(a + [c] + b, c) == [a, b]
  {
    var s := a + [c] + b;
    assert s[|a|] == c;
    var i := IndexOf(s, c);
    assert s[..i] == a;
    assert s[i + 1..] == b;
  }

  /** A string with exactly one separator has it at a unique position, and the
      text around it is free of separators. */
  lemma {:induction false} OneSeparator(s: string, c: char, i: int)
    requires Count(s, c) == 1
    requires 0 <= i < |s| && s[i] == c
    ensures c !in s[..i] && c !in s[i + 1..]
    ensures Split(s, c) == [s[..i], s[i + 1..]]
  {
    assert s == s[..i] + ([c] + s[i + 1..]);
    CountConcat(s[..i], [c] + s[i + 1..], c);
    assert ([c] + s[i + 1..])[1..] == s[i + 1..];
    SplitAround(s[..i], s[i + 1..], c);
  }
}
