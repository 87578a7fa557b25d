/**
 * Absolute, normalised POSIX paths as sequences of segments: `/a/b` is
 * ["a", "b"] and the root `/` is []. Only the parts of Node's `path` module
 * that the plugin uses are modelled: `resolve(dir, name)` for a plain file
 * name, `resolve(dir, '..')` / `dirname`, and `relative` from an ancestor.
 */
module Paths {
  import opened Strings

  type Path = seq<string>

  const PackageJson := "package.json"

  /** A segment of a normalised path is non-empty and holds no separator. */
  predicate ValidSegment(s: string) {
    s != "" && '/' !in s
  }

  predicate ValidPath(p: Path) {
    forall i :: 0 <= i < |p| ==> ValidSegment(p[i])
  }

  /** `a` is `p` itself or one of the directories above it. */
  predicate IsAncestorOrSelf(a: Path, p: Path) {
    |a| <= |p| && p[..|a|] == a
  }

  /**
   * `path.dirname(p)`, which for a normalised absolute path is also
   * `path.resolve(p, '..')`: the root is the only fixed point.
   */
  function Dirname(p: Path): (d: Path)
    ensures d == p <==> p == []
    ensures IsAncestorOrSelf(d, p)
    ensures p != [] ==> |d| == |p| - 1
  {
    if p == [] then [] else p[..|p| - 1]
  }

  /** `path.resolve(dir, name)` for a plain file name. */
  function Resolve(dir: Path, name: string): (p: Path)
    ensures |p| == |dir| + 1 && p[|dir|] == name
    ensures Dirname(p) == dir
  {
    dir + [name]
  }

  lemma AncestorTransitive(a: Path, b: Path, c: Path)
    requires IsAncestorOrSelf(a, b) && IsAncestorOrSelf(b, c)
    ensures IsAncestorOrSelf(a, c)
  {
    assert c[..|a|] == c[..|b|][..|a|];
  }

  /** The segments joined by '/', as `path.relative` prints them. */
  function Join(segments: seq<string>): string
  {
    if segments == [] then ""
    else if |segments| == 1 then segments[0]
    else segments[0] + "/" + Join(segments[1..])
  }

  /** `path.relative(from, to)` when `from` is an ancestor of `to`: the segments below `from`. */
  function Relative(from: Path, to: Path): string
    requires IsAncestorOrSelf(from, to)
  {
    Join(to[|from|..])
  }

  /** Reads the segments back out of a '/'-separated relative path. */
  function Split(s: string): seq<string>
    decreases |s|
  {
    if s == "" then []
    else if '/' !in s then [s]
    else
      var i := IndexOf(s, '/');
      [s[..i]] + Split(s[i + 1..])
  }

  /** Splitting stops at the first separator, which follows a valid segment. */
  lemma SplitAfterSegment(a: string, t: string)
    requires ValidSegment(a)
    ensures Split(a + "/" + t) == [a] + Split(t)
  {
    var s := a + "/" + t;
    IndexOfAfter(a, '/', t);
    assert s[|a|] == '/';
    assert s[..|a|] == a;
    assert s[|a| + 1..] == t;
  }

  /** Joining valid segments loses nothing: `Split` recovers them. */
  lemma {:induction false} SplitJoin(segments: seq<string>)
    requires ValidPath(segments)
    ensures Split(Join(segments)) == segments
  {
    if |segments| > 1 {
      var rest := segments[1..];
      assert ValidSegment(segments[0]);
      assert ValidPath(rest) by {
        forall i | 0 <= i < |rest| ensures ValidSegment(rest[i]) {
          assert rest[i] == segments[i + 1];
        }
      }
      SplitAfterSegment(segments[0], Join(rest));
      SplitJoin(rest);
    } else if |segments| == 1 {
      assert ValidSegment(segments[0]);
    }
  }

  /** A path relative to a valid ancestor never starts with '/': it does not leak the absolute layout. */
  lemma {:induction false} RelativeIsRelative(from: Path, to: Path)
    requires ValidPath(to) && IsAncestorOrSelf(from, to)
    ensures Relative(from, to) == "" <==> from == to
    ensures Relative(from, to) != "" ==> Relative(from, to)[0] != '/'
    ensures Split(Relative(from, to)) == to[|from|..]
  {
    var rest := to[|from|..];
    assert ValidPath(rest) by {
      forall i | 0 <= i < |rest| ensures ValidSegment(rest[i]) {
        assert rest[i] == to[|from| + i];
      }
    }
    if rest != [] {
      assert ValidSegment(rest[0]);
      if |rest| > 1 {
        assert Join(rest) == rest[0] + "/" + Join(rest[1..]);
        assert Join(rest)[0] == rest[0][0];
      }
    } else {
      assert to == to[..|from|];
    }
    SplitJoin(rest);
  }
}
