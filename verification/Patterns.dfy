/**
 The approval-pattern matcher of the stub, and what it means.

 `MatchPattern` keeps the source's branches.  Its meaning is given separately:
 a pattern denotes a subtree of '/'-separated segments, a string prefix, or one
 exact string (`Parse` and `Denotes`), and the two agree on all strings.
 */
module Patterns {

  // ---------- The code ----------

  predicate MatchPattern(pattern: string, path: string) {
    if pattern == path then
      true
    else if |pattern| >= 3 && pattern[|pattern| - 3..] == "/**" then
      var prefix := pattern[..|pattern| - 3];
      if path == prefix || path == prefix + "/" then
        true
      else if |path| > |prefix| && path[|prefix|] == '/' then
        path[..|prefix|] == prefix
      else
        false
    else if |pattern| > 0 && pattern[|pattern| - 1] == '*' then
      var prefix := pattern[..|pattern| - 1];
      |path| >= |prefix| && path[..|prefix|] == prefix
    else
      false
  }

  /** The pattern a refused request carries: everything at or below `dir`. */
  function Minted(dir: string): string {
    dir + "/**"
  }

  // ---------- The meaning ----------

  /** The '/'-split of a path; the empty path has one empty segment. */
  function Segments(path: string): (segments: seq<string>)
    ensures |segments| > 0
    ensures forall seg :: seg in segments ==> '/' !in seg
  {
    if path == "" then
      [""]
    else
      var rest := Segments(path[1..]);
      if path[0] == '/' then [""] + rest else [[path[0]] + rest[0]] + rest[1..]
  }

  function Join(segments: seq<string>): string
    requires |segments| > 0
  {
    if |segments| == 1 then segments[0] else segments[0] + "/" + Join(segments[1..])
  }

  /** `path` is `dir` or lies below it: `dir`'s segments start `path`'s segments. */
  predicate Covers(dir: string, path: string) {
    Segments(dir) <= Segments(path)
  }

  datatype Pattern = Subtree(dir: string) | StartsWith(prefix: string) | Exactly(path: string)

  function Parse(pattern: string): Pattern {
    if |pattern| >= 3 && pattern[|pattern| - 3..] == "/**" then
      Subtree(pattern[..|pattern| - 3])
    else if |pattern| >= 1 && pattern[|pattern| - 1] == '*' then
      StartsWith(pattern[..|pattern| - 1])
    else
      Exactly(pattern)
  }

  predicate Denotes(pattern: Pattern, path: string) {
    match pattern
    case Subtree(dir) => Covers(dir, path)
    case StartsWith(prefix) => prefix <= path
    case Exactly(exact) => path == exact
  }

  // ---------- Segment prefixes and string prefixes ----------

  /** Being a segment prefix is being equal, or a string prefix that stops before a '/'. */
  lemma {:induction false} CoversIsStringPrefix(dir: string, path: string)
    ensures Covers(dir, path) <==> dir == path || dir + "/" <= path
  {
    if path == "" {
      // Only "" has [""] as its segments.
    } else if dir == "" {
      assert Segments(dir) == [""] && Covers(dir, path) == (Segments(path)[0] == "");
      assert Segments(path)[0] == if path[0] == '/' then "" else [path[0]] + Segments(path[1..])[0];
      assert dir + "/" <= path <==> path[0] == '/';
    } else {
      CoversIsStringPrefix(dir[1..], path[1..]);
      var d, p := Segments(dir[1..]), Segments(path[1..]);
      assert dir == [dir[0]] + dir[1..] && path == [path[0]] + path[1..];
      assert (dir + "/")[1..] == dir[1..] + "/";
      if dir[0] == path[0] {
        if dir[0] == '/' {
          ConsPrefix("", d, p);
        } else {
          ConsSegments(dir[0], d, p);
        }
        assert Segments(dir) <= Segments(path) <==> d <= p;
        assert dir + "/" <= path <==> dir[1..] + "/" <= path[1..];
      } else {
        var first, other := Segments(dir)[0], Segments(path)[0];
        assert first == (if dir[0] == '/' then "" else [dir[0]] + d[0]);
        assert other == (if path[0] == '/' then "" else [path[0]] + p[0]);
        assert first == [] || other == [] || first[0] != other[0];
      }
    }
  }

  lemma ConsPrefix<T>(x: T, d: seq<T>, p: seq<T>)
    ensures [x] + d <= [x] + p <==> d <= p
  {
    assert ([x] + d)[1..] == d && ([x] + p)[1..] == p;
    if [x] + d <= [x] + p {
      assert ([x] + p)[..|d| + 1][1..] == p[..|d|];
    }
  }

  lemma ConsSegments(c: char, d: seq<string>, p: seq<string>)
    requires |d| > 0 && |p| > 0
    ensures [[c] + d[0]] + d[1..] <= [[c] + p[0]] + p[1..] <==> d <= p
  {
    var dd, pp := [[c] + d[0]] + d[1..], [[c] + p[0]] + p[1..];
    if dd <= pp {
      assert dd[0][1..] == d[0] && pp[0][1..] == p[0];
      forall i | 0 <= i < |d| ensures d[i] == p[i] {
        assert dd[i] == pp[i];
      }
    }
    if d <= p {
      assert d[0] == p[0];
      forall i | 0 <= i < |dd| ensures dd[i] == pp[i] {
        assert d[i] == p[i];
      }
    }
  }

  // ---------- The matcher computes the meaning ----------

  /** For all strings: the code's matcher is exactly the denotation of the parsed pattern. */
  lemma MatchIsDenotation(pattern: string, path: string)
    ensures MatchPattern(pattern, path) <==> Denotes(Parse(pattern), path)
  {
    if |pattern| >= 3 && pattern[|pattern| - 3..] == "/**" {
      var dir := pattern[..|pattern| - 3];
      assert pattern == dir + "/**" == dir + "/" + "**";
      CoversIsStringPrefix(dir, path);
      if |path| > |dir| && path[|dir|] == '/' && path[..|dir|] == dir {
        assert path[..|dir| + 1] == dir + "/";
      }
    }
  }

  /** A minted pattern matches exactly the paths whose segments extend the directory's. */
  lemma MintedCovers(dir: string, path: string)
    ensures MatchPattern(Minted(dir), path) <==> Covers(dir, path)
  {
    MatchIsDenotation(Minted(dir), path);
    assert Minted(dir)[..|Minted(dir)| - 3] == dir;
  }

  /** A trailing single star is a raw string prefix: unlike a minted pattern it reaches siblings. */
  lemma StarIsRawPrefix(prefix: string, path: string)
    requires !(|prefix| >= 2 && prefix[|prefix| - 2..] == "/*")
    ensures MatchPattern(prefix + "*", path) <==> prefix <= path
  {
    var pattern := prefix + "*";
    MatchIsDenotation(pattern, path);
    if |prefix| >= 2 {
      assert pattern[|pattern| - 3..] == prefix[|prefix| - 2..] + "*";
      assert (prefix[|prefix| - 2..] + "*")[..2] == prefix[|prefix| - 2..];
    }
    assert pattern[..|pattern| - 1] == prefix;
  }

  // ---------- Order ----------

  lemma {:induction false} JoinSegments(path: string)
    ensures Join(Segments(path)) == path
  {
    if path != "" {
      var rest := Segments(path[1..]);
      JoinSegments(path[1..]);
      if path[0] == '/' {
        assert ([""] + rest)[1..] == rest;
        assert "" + "/" + path[1..] == path;
      } else {
        var all := [[path[0]] + rest[0]] + rest[1..];
        assert all[1..] == rest[1..];
        if |rest| > 1 {
          assert [path[0]] + (rest[0] + "/" + Join(rest[1..])) == [path[0]] + rest[0] + "/" + Join(rest[1..]);
        }
      }
    }
  }

  lemma {:induction false} SegmentsJoin(segments: seq<string>)
    requires |segments| > 0 && forall seg :: seg in segments ==> '/' !in seg
    ensures Segments(Join(segments)) == segments
    decreases |segments|, |segments[0]|
  {
    var path := Join(segments);
    var head, tail := segments[0], segments[1..];
    if head == "" {
      if tail != [] {
        assert path == "/" + Join(tail);
        SegmentsJoin(tail);
        assert [""] + tail == segments;
      }
    } else {
      var shorter := [head[1..]] + tail;
      assert head[0] != '/' by { assert head[0] in head; assert head in segments; }
      forall seg | seg in shorter ensures '/' !in seg {
        if seg == head[1..] { assert forall c :: c in head[1..] ==> c in head; assert head in segments; }
      }
      assert shorter[1..] == tail;
      assert path == [head[0]] + Join(shorter);
      SegmentsJoin(shorter);
      assert [head[0]] + head[1..] == head;
      assert shorter[0] == head[1..];
      assert [head] + tail == segments;
    }
  }

  /**
   Coverage by minted patterns is a partial order on paths, and the directories
   covering one path are comparable: the paths form a tree.
   */
  lemma CoverageIsTreeOrder(a: string, b: string, c: string)
    ensures MatchPattern(Minted(a), a)
    ensures MatchPattern(Minted(a), b) && MatchPattern(Minted(b), c) ==> MatchPattern(Minted(a), c)
    ensures MatchPattern(Minted(a), b) && MatchPattern(Minted(b), a) ==> a == b
    ensures MatchPattern(Minted(a), c) && MatchPattern(Minted(b), c)
            ==> MatchPattern(Minted(a), b) || MatchPattern(Minted(b), a)
  {
    MintedCovers(a, a);
    MintedCovers(a, b);
    MintedCovers(b, a);
    MintedCovers(b, c);
    MintedCovers(a, c);
    JoinSegments(a);
    JoinSegments(b);
  }

  /** A sibling that merely extends the directory's name is never covered, nor is anything below it. */
  lemma SiblingNotCovered(dir: string, c: char, rest: string)
    requires c != '/'
    ensures !MatchPattern(Minted(dir), dir + [c] + rest)
  {
    var path := dir + [c] + rest;
    MintedCovers(dir, path);
    CoversIsStringPrefix(dir, path);
    assert (dir + "/")[|dir|] == '/' && path[|dir|] == c;
  }
}
