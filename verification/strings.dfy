/**
 * String helpers the extension takes from JavaScript: `startsWith`,
 * `Array.prototype.join` and splitting on a separator character.
 */
module Strings {

  /** JavaScript's `s.startsWith(prefix)`: a character-sequence prefix test. */
  predicate StartsWith(s: string, prefix: string)
    ensures StartsWith(s, prefix) <==>
      |prefix| <= |s| && forall i :: 0 <= i < |prefix| ==> s[i] == prefix[i]
  {
    prefix <= s
  }

  /** The summed lengths of the strings in `xs`. */
  function TotalLength(xs: seq<string>): nat
  {
    if |xs| == 0 then 0 else |xs[0]| + TotalLength(xs[1..])
  }

  /** `xs.join(sep)` for a one-character separator. */
  function JoinWith(xs: seq<string>, sep: char): (r: string)
    ensures |xs| > 0 ==> xs[0] <= r
    ensures |xs| > 0 ==> |r| == TotalLength(xs) + |xs| - 1
  {
    if |xs| == 0 then ""
    else if |xs| == 1 then xs[0]
    else xs[0] + [sep] + JoinWith(xs[1..], sep)
  }

  /** An empty list joins to `""`; a non-empty one ends with its last element. */
  lemma {:induction false} JoinWithShape(xs: seq<string>, sep: char)
    ensures |xs| == 0 ==> JoinWith(xs, sep) == ""
    ensures |xs| > 0 ==> var r := JoinWith(xs, sep); var last := xs[|xs| - 1];
      |last| <= |r| && r[|r| - |last|..] == last
    decreases |xs|
  {
    if |xs| > 1 {
      JoinWithShape(xs[1..], sep);
      var tail := JoinWith(xs[1..], sep);
      var r := xs[0] + [sep] + tail;
      var last := xs[|xs| - 1];
      assert last == xs[1..][|xs[1..]| - 1];
      assert |last| <= |tail|;
      assert r[|r| - |last|..] == tail[|tail| - |last|..];
    }
  }

  /** `tokens.join(" ")`, as the extension builds its terminal lines. */
  function JoinTokens(tokens: seq<string>): string
  {
    JoinWith(tokens, ' ')
  }

  /** `s.split(sep)`: the maximal separator-free pieces of `s`, in order. */
  function Split(s: string, sep: char): (r: seq<string>)
    ensures |r| >= 1
    ensures forall i :: 0 <= i < |r| ==> sep !in r[i]
    decreases |s|
  {
    if |s| == 0 then [""]
    else
      var rest := Split(s[1..], sep);
      if s[0] == sep then [""] + rest
      else [[s[0]] + rest[0]] + rest[1..]
  }

  /** Joining the pieces back with the separator gives the string again. */
  lemma {:induction false} JoinWithSplit(s: string, sep: char)
    ensures JoinWith(Split(s, sep), sep) == s
    decreases |s|
  {
    if |s| > 0 {
      var rest := Split(s[1..], sep);
      JoinWithSplit(s[1..], sep);
      assert s == [s[0]] + s[1..];
      if s[0] == sep {
        JoinWithCons("", rest, sep);
      } else if |rest| > 1 {
        var r := [[s[0]] + rest[0]] + rest[1..];
        JoinWithCons([s[0]] + rest[0], rest[1..], sep);
        JoinWithCons(rest[0], rest[1..], sep);
        assert rest == [rest[0]] + rest[1..];
      }
    }
  }

  /** A non-empty list of space-free tokens splits back at spaces into exactly itself. */
  lemma SplitJoinTokens(tokens: seq<string>)
    requires |tokens| > 0
    requires forall i :: 0 <= i < |tokens| ==> ' ' !in tokens[i]
    ensures Split(JoinTokens(tokens), ' ') == tokens
  {
    SplitJoinWith(tokens, ' ');
  }

  /** Joining a list with a first element in front. */
  lemma JoinWithCons(x: string, xs: seq<string>, sep: char)
    requires |xs| > 0
    ensures JoinWith([x] + xs, sep) == x + [sep] + JoinWith(xs, sep)
  {
    assert ([x] + xs)[1..] == xs;
  }

  /** Splitting distributes over a separator placed between two strings. */
  lemma {:induction false} SplitConcat(a: string, b: string, sep: char)
    ensures Split(a + [sep] + b, sep) == Split(a, sep) + Split(b, sep)
    decreases |a|
  {
    var s := a + [sep] + b;
    if |a| == 0 {
      assert s == [sep] + b;
      assert s[1..] == b;
    } else {
      assert s[0] == a[0];
      assert s[1..] == a[1..] + [sep] + b;
      SplitConcat(a[1..], b, sep);
    }
  }

  /** A string without the separator splits into itself alone. */
  lemma {:induction false} SplitNoSep(s: string, sep: char)
    requires sep !in s
    ensures Split(s, sep) == [s]
    decreases |s|
  {
    if |s| > 0 {
      assert sep !in s[1..] by {
        forall i | 0 <= i < |s[1..]| ensures s[1..][i] != sep {
          assert s[1..][i] == s[i + 1];
        }
      }
      SplitNoSep(s[1..], sep);
      assert s == [s[0]] + s[1..];
    }
  }

  /** Splitting undoes joining, for a non-empty list of separator-free pieces. */
  lemma {:induction false} SplitJoinWith(xs: seq<string>, sep: char)
    requires |xs| > 0
    requires forall i :: 0 <= i < |xs| ==> sep !in xs[i]
    ensures Split(JoinWith(xs, sep), sep) == xs
    decreases |xs|
  {
    if |xs| == 1 {
      SplitNoSep(xs[0], sep);
    } else {
      SplitNoSep(xs[0], sep);
      SplitJoinWith(xs[1..], sep);
      SplitConcat(xs[0], JoinWith(xs[1..], sep), sep);
      assert xs == [xs[0]] + xs[1..];
    }
  }
}
