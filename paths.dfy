/** Splitting a request path at a separator character.
    The facades build paths by plain concatenation with no escaping, so these
    functions say what a server reading the path at `/`, `?`, `&` or `=` sees. */
module Paths {

  /** The position of the first `c` in `s`. */
  function IndexOf(s: string, c: char): (i: nat)
    requires c in s
    ensures i < |s| && s[i] == c && c !in s[..i]
  {
    if s[0] == c then 0 else assert s == [s[0]] + s[1..]; 1 + IndexOf(s[1..], c)
  }

  /** The pieces of `s` between occurrences of `sep`. */
  function Split(s: string, sep: char): (parts: seq<string>)
    ensures |parts| >= 1
    decreases |s|
  {
    if sep in s then
      var i := IndexOf(s, sep);
      [s[..i]] + Split(s[i + 1..], sep)
    else
      [s]
  }

  /** The first piece ends at the first separator. */
  lemma SplitAfter(a: string, sep: char, b: string)
    requires sep !in a
    ensures Split(a + [sep] + b, sep) == [a] + Split(b, sep)
  {
    var s := a + [sep] + b;
    assert s[|a|] == sep;
    var i := IndexOf(s, sep);
    assert s[..i] == a;
    assert s[i + 1..] == b;
  }

  /** The last piece starts after the last separator. */
  lemma {:induction false} SplitBefore(a: string, sep: char, b: string)
    requires sep !in b
    ensures Split(a + [sep] + b, sep) == Split(a, sep) + [b]
    decreases |a|
  {
    if sep in a {
      var i := IndexOf(a, sep);
      var head, rest := a[..i], a[i + 1..];
      Around(a, i);
      Regroup(head, sep, rest, b);
      SplitAfter(head, sep, rest + [sep] + b);
      SplitBefore(rest, sep, b);
      assert Split(a, sep) == [head] + Split(rest, sep);
      ConsSnoc(head, Split(rest, sep), b);
    } else {
      SplitAfter(a, sep, b);
    }
  }

  lemma Regroup(head: string, sep: char, rest: string, b: string)
    ensures head + [sep] + rest + [sep] + b == head + [sep] + (rest + [sep] + b)
  {
  }

  /** A string is the part before position `i`, the character there and the rest. */
  lemma Around(s: string, i: nat)
    requires i < |s|
    ensures s == s[..i] + [s[i]] + s[i + 1..]
  {
    assert s[..i] + [s[i]] + s[i + 1..] == s[..i] + s[i..];
  }

  lemma ConsSnoc(x: string, middle: seq<string>, y: string)
    ensures [x] + (middle + [y]) == [x] + middle + [y]
  {
  }
}
