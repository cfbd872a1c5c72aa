/**
 * A POSIX path model standing in for Node's `path.dirname`, `path.basename`,
 * `path.join` and `path.relative`.
 *
 * Every path string is read as an absolute POSIX path: it is split at `/`
 * and normalised the way `path.normalize` treats an absolute path (empty and
 * `.` pieces vanish, `..` removes the last segment and stays put at the
 * root). A normalised path is a sequence of segments and is written back
 * canonically as `/a/b` (the root is `/`).
 */
module Paths {
  import opened Strings

  const Sep: char := '/'

  /** A segment of a normalised path. */
  predicate IsSegment(s: string)
  {
    s != "" && Sep !in s && s != "." && s != ".."
  }

  predicate AllSegments(segs: seq<string>)
  {
    forall i :: 0 <= i < |segs| ==> IsSegment(segs[i])
  }

  /** Pieces as produced by splitting at the separator. */
  predicate NoSep(pieces: seq<string>)
  {
    forall i :: 0 <= i < |pieces| ==> Sep !in pieces[i]
  }

  function DropLast(segs: seq<string>): seq<string>
  {
    if |segs| == 0 then segs else segs[..|segs| - 1]
  }

  /** Applies one piece of a path to the segments normalised so far. */
  function Step(acc: seq<string>, piece: string): seq<string>
  {
    if piece == "" || piece == "." then acc
    else if piece == ".." then DropLast(acc)
    else acc + [piece]
  }

  /** Applies the pieces from left to right. */
  function Steps(acc: seq<string>, pieces: seq<string>): seq<string>
    decreases |pieces|
  {
    if |pieces| == 0 then acc
    else Steps(Step(acc, pieces[0]), pieces[1..])
  }

  /** Normalising separator-free pieces onto normalised segments yields normalised segments. */
  lemma {:induction false} StepsValid(acc: seq<string>, pieces: seq<string>)
    requires AllSegments(acc) && NoSep(pieces)
    ensures AllSegments(Steps(acc, pieces))
    decreases |pieces|
  {
    if |pieces| > 0 {
      assert NoSep(pieces[1..]) by {
        forall i | 0 <= i < |pieces[1..]| ensures Sep !in pieces[1..][i] {
          assert pieces[1..][i] == pieces[i + 1];
        }
      }
      StepsValid(Step(acc, pieces[0]), pieces[1..]);
    }
  }

  /** The normalised segments of a path string. */
  function Segments(p: string): (r: seq<string>)
    ensures AllSegments(r)
  {
    var pieces := Split(p, Sep);
    StepsValid([], pieces);
    Steps([], pieces)
  }

  /** The canonical absolute path string of a segment sequence. */
  function Render(segs: seq<string>): (r: string)
    ensures |r| > 0 && r[0] == Sep
  {
    [Sep] + JoinWith(segs, Sep)
  }

  /** `n` parent-directory pieces. */
  function Ups(n: nat): (r: seq<string>)
    ensures |r| == n
    ensures forall i :: 0 <= i < n ==> r[i] == ".."
  {
    if n == 0 then [] else [".."] + Ups(n - 1)
  }

  /** Running pieces one list after another is running their concatenation. */
  lemma {:induction false} StepsConcat(acc: seq<string>, x: seq<string>, y: seq<string>)
    ensures Steps(acc, x + y) == Steps(Steps(acc, x), y)
    decreases |x|
  {
    if |x| > 0 {
      assert (x + y)[0] == x[0];
      assert (x + y)[1..] == x[1..] + y;
      StepsConcat(Step(acc, x[0]), x[1..], y);
    } else {
      assert x + y == y;
    }
  }

  /** Normalised segments are appended unchanged. */
  lemma {:induction false} StepsSegments(acc: seq<string>, segs: seq<string>)
    requires AllSegments(segs)
    ensures Steps(acc, segs) == acc + segs
    decreases |segs|
  {
    if |segs| > 0 {
      assert IsSegment(segs[0]);
      StepsSegments(acc + [segs[0]], segs[1..]);
      assert acc + [segs[0]] + segs[1..] == acc + segs;
    }
  }

  /** Each `..` removes one trailing segment. */
  lemma {:induction false} StepsUps(acc: seq<string>, n: nat)
    requires n <= |acc|
    ensures Steps(acc, Ups(n)) == acc[..|acc| - n]
    decreases n
  {
    if n > 0 {
      var a := Ups(n);
      assert a[0] == ".." && a[1..] == Ups(n - 1);
      StepsUps(DropLast(acc), n - 1);
      assert DropLast(acc)[..|DropLast(acc)| - (n - 1)] == acc[..|acc| - n];
    } else {
      assert acc[..|acc|] == acc;
    }
  }

  /** Reading a canonical path string gives back its segments. */
  lemma RenderRoundTrip(segs: seq<string>)
    requires AllSegments(segs)
    ensures Segments(Render(segs)) == segs
  {
    var body := JoinWith(segs, Sep);
    assert Render(segs) == "" + [Sep] + body;
    SplitConcat("", body, Sep);
    if |segs| == 0 {
      assert Split(Render(segs), Sep) == ["", ""];
      assert Steps([], ["", ""]) == Steps([], [""]) == Steps([], []);
    } else {
      SplitJoinWith(segs, Sep);
      StepsSegments([], segs);
      assert Split(Render(segs), Sep) == [""] + segs;
      assert Steps([], [""] + segs) == Steps([], segs);
    }
  }

  /** Node's `path.dirname` of an absolute path: the path without its last segment. */
  function Dirname(p: string): (r: string)
    ensures Segments(r) == DropLast(Segments(p))
    ensures |r| > 0 && r[0] == Sep
    ensures r == Render(Segments(r))
  {
    var d := DropLast(Segments(p));
    RenderRoundTrip(d);
    Render(d)
  }

  /** Node's `path.basename` of an absolute path: its last segment, or `""` for the root. */
  function Basename(p: string): (r: string)
    ensures Sep !in r
    ensures r == "" <==> Segments(p) == []
  {
    var s := Segments(p);
    if |s| == 0 then "" else s[|s| - 1]
  }

  /** A path is its directory followed by its base name. */
  lemma DirnameBasename(p: string)
    requires Segments(p) != []
    ensures Segments(p) == Segments(Dirname(p)) + [Basename(p)]
  {
    var s := Segments(p);
    var d := Segments(Dirname(p));
    var b := Basename(p);
    assert b == s[|s| - 1];
    assert d == s[..|s| - 1];
    LastSplit(s);
  }

  /** A non-empty sequence is its front followed by its last element. */
  lemma LastSplit(s: seq<string>)
    requires |s| > 0
    ensures s == s[..|s| - 1] + [s[|s| - 1]]
  {
  }

  /**
   * Node's `path.join(a, b)`: `b`'s pieces applied to `a`'s segments, written
   * canonically, so the result is never empty.
   */
  function Join(a: string, b: string): (r: string)
    ensures |r| > 0 && r[0] == Sep
    ensures Segments(r) == Steps(Segments(a), Split(b, Sep))
    ensures r == Render(Segments(r))
  {
    var segs := Steps([], Split(a + [Sep] + b, Sep));
    SplitConcat(a, b, Sep);
    StepsConcat([], Split(a, Sep), Split(b, Sep));
    StepsValid([], Split(a + [Sep] + b, Sep));
    RenderRoundTrip(segs);
    Render(segs)
  }

  /** The length of the longest common prefix of two sequences. */
  function CommonPrefixLength(a: seq<string>, b: seq<string>): (k: nat)
    ensures k <= |a| && k <= |b|
    ensures a[..k] == b[..k]
    ensures k < |a| && k < |b| ==> a[k] != b[k]
  {
    if |a| == 0 || |b| == 0 || a[0] != b[0] then 0
    else
      var k' := CommonPrefixLength(a[1..], b[1..]);
      assert a[..k' + 1] == [a[0]] + a[1..][..k'];
      assert b[..k' + 1] == [b[0]] + b[1..][..k'];
      k' + 1
  }

  /** The pieces of the relative path from `from` to `to`: up to the common ancestor, then down. */
  function RelativePieces(from: seq<string>, to: seq<string>): seq<string>
  {
    var k := CommonPrefixLength(from, to);
    Ups(|from| - k) + to[k..]
  }

  /** The relative pieces are `..` or segments of `to`, so none is empty or holds a separator. */
  lemma RelativePiecesShape(from: seq<string>, to: seq<string>)
    requires AllSegments(to)
    ensures var xs := RelativePieces(from, to);
      forall i :: 0 <= i < |xs| ==> xs[i] != "" && Sep !in xs[i]
  {
    var k := CommonPrefixLength(from, to);
    var ups := Ups(|from| - k);
    var xs := RelativePieces(from, to);
    forall i | 0 <= i < |xs| ensures xs[i] != "" && Sep !in xs[i] {
      if i < |ups| {
        assert xs[i] == "..";
      } else {
        assert xs[i] == to[k + (i - |ups|)];
      }
    }
  }

  /** Running the relative pieces from `from` lands on `to`. */
  lemma StepsRelativePieces(from: seq<string>, to: seq<string>)
    requires AllSegments(from) && AllSegments(to)
    ensures Steps(from, RelativePieces(from, to)) == to
  {
    var k := CommonPrefixLength(from, to);
    UpThenDown(from, to, k);
  }

  /** Climbing from `from` to a common ancestor at depth `k` and descending along `to` reaches `to`. */
  lemma UpThenDown(from: seq<string>, to: seq<string>, k: nat)
    requires AllSegments(to)
    requires k <= |from| && k <= |to| && from[..k] == to[..k]
    ensures Steps(from, Ups(|from| - k) + to[k..]) == to
  {
    var n := |from| - k;
    var ups := Ups(n);
    var down := to[k..];
    var base := from[..k];
    StepsConcat(from, ups, down);
    StepsUps(from, n);
    assert Steps(from, ups) == base;
    SuffixSegments(to, k);
    StepsSegments(base, down);
    assert Steps(base, down) == base + down;
    PrefixSuffix(to, k);
  }

  /** A sequence is its prefix followed by the matching suffix. */
  lemma PrefixSuffix(s: seq<string>, k: nat)
    requires k <= |s|
    ensures s[..k] + s[k..] == s
  {
  }

  /** A suffix of normalised segments is normalised. */
  lemma SuffixSegments(segs: seq<string>, k: nat)
    requires AllSegments(segs) && k <= |segs|
    ensures AllSegments(segs[k..])
  {
    forall i | 0 <= i < |segs[k..]| ensures IsSegment(segs[k..][i]) {
      assert segs[k..][i] == segs[k + i];
    }
  }

  /** The relative pieces are empty exactly when the two paths agree. */
  lemma RelativePiecesEmpty(from: seq<string>, to: seq<string>)
    ensures RelativePieces(from, to) == [] <==> from == to
  {
    var k := CommonPrefixLength(from, to);
    if RelativePieces(from, to) == [] {
      assert |from| == k == |to|;
      assert from == from[..k] && to == to[..k];
    }
  }

  /** Joining the relative pieces onto `from` lands on `to`, and they are empty exactly when the two agree. */
  lemma RelativePiecesJoin(from: seq<string>, to: seq<string>)
    requires AllSegments(from) && AllSegments(to)
    ensures var rel := JoinWith(RelativePieces(from, to), Sep);
      && Steps(from, Split(rel, Sep)) == to
      && (rel == "" <==> from == to)
      && (rel != "" ==> rel[0] != Sep)
      && (rel != "" ==> Split(rel, Sep) == RelativePieces(from, to))
  {
    var xs := RelativePieces(from, to);
    var rel := JoinWith(xs, Sep);
    RelativePiecesShape(from, to);
    RelativePiecesEmpty(from, to);
    if |xs| == 0 {
      assert Split(rel, Sep) == [""];
      assert Steps(from, [""]) == from;
    } else {
      assert rel != "" && rel[0] == xs[0][0];
      SplitJoinWith(xs, Sep);
      StepsRelativePieces(from, to);
    }
  }

  /**
   * Node's `path.relative(from, to)`: the relative path which, joined onto
   * `from`, names `to`; empty when both name the same directory. Otherwise it
   * climbs with `..` exactly to the deepest common ancestor and then descends
   * along the rest of `to`.
   */
  function Relative(from: string, to: string): (r: string)
    ensures Segments(Join(from, r)) == Segments(to)
    ensures r == "" <==> Segments(from) == Segments(to)
    ensures r != "" ==> r[0] != Sep
    ensures var f := Segments(from);
      var t := Segments(to);
      var k := CommonPrefixLength(f, t);
      r != "" ==> Split(r, Sep) == Ups(|f| - k) + t[k..]
  {
    var f := Segments(from);
    var t := Segments(to);
    RelativePiecesJoin(f, t);
    JoinWith(RelativePieces(f, t), Sep)
  }

  /** The climb-then-descend shape pins the relative path down: no other string has it. */
  lemma RelativeUnique(from: string, to: string, r: string)
    requires r == "" <==> Segments(from) == Segments(to)
    requires var f := Segments(from);
      var t := Segments(to);
      var k := CommonPrefixLength(f, t);
      r != "" ==> Split(r, Sep) == Ups(|f| - k) + t[k..]
    ensures r == Relative(from, to)
  {
    var rel := Relative(from, to);
    if r != "" {
      JoinWithSplit(r, Sep);
      JoinWithSplit(rel, Sep);
    }
  }

  /** The path from a file's directory to the file is its base name. */
  lemma RelativeToDirname(p: string)
    ensures Relative(Dirname(p), p) == Basename(p)
  {
    var t := Segments(p);
    var f := Segments(Dirname(p));
    assert f == DropLast(t);
    var xs := RelativePieces(f, t);
    assert Relative(Dirname(p), p) == JoinWith(xs, Sep);
    FrontRelativePieces(t);
  }

  /** From a sequence without its last element, the relative pieces are that element alone. */
  lemma FrontRelativePieces(t: seq<string>)
    ensures |t| > 0 ==> RelativePieces(DropLast(t), t) == [t[|t| - 1]]
    ensures |t| == 0 ==> RelativePieces(DropLast(t), t) == []
  {
    var f := DropLast(t);
    var k := CommonPrefixLength(f, t);
    assert k == |f|;
    assert Ups(0) == [];
    if |t| > 0 {
      assert t[k..] == [t[|t| - 1]];
    }
  }
}
