/** `String.prototype.split(".")` on the dot-delimited key paths handed to setPath. */
module Paths {

  /** A key path: at least one key. */
  type Path = p: seq<string> | |p| >= 1 witness [""]

  /** The segments of `s` between dots, in order; an empty string or adjacent dots give empty segments. */
  function Split(s: string): (segs: Path)
    ensures DotFree(segs)
  {
    if s == [] then [""]
    else
      var rest := Split(s[1..]);
      if s[0] == '.' then [""] + rest
      else [[s[0]] + rest[0]] + rest[1..]
  }

  /** No segment holds a dot. */
  predicate DotFree(segs: seq<string>) {
    forall i :: 0 <= i < |segs| ==> '.' !in segs[i]
  }

  /** `segs.join(".")`. */
  function Join(segs: seq<string>): string
    requires |segs| >= 1
  {
    if |segs| == 1 then segs[0] else segs[0] + "." + Join(segs[1..])
  }

  /** Splitting loses nothing: joining the segments gives back the path. */
  lemma {:induction false} JoinSplit(s: string)
    ensures Join(Split(s)) == s
  {
    if s != [] {
      JoinSplit(s[1..]);
      var rest := Split(s[1..]);
      if s[0] == '.' {
        assert Split(s) == [""] + rest;
        assert ([""] + rest)[1..] == rest;
        assert s == [s[0]] + s[1..];
      } else {
        var segs := Split(s);
        assert segs[0] == [s[0]] + rest[0];
        assert segs[1..] == rest[1..];
        if |rest| == 1 {
          assert Join(segs) == [s[0]] + rest[0];
        } else {
          assert Join(rest) == rest[0] + "." + Join(rest[1..]);
          assert Join(segs) == ([s[0]] + rest[0]) + "." + Join(rest[1..]);
        }
        assert s == [s[0]] + s[1..];
      }
    }
  }

  /** Splitting a dot-free prefix glued to a rest extends the rest's first segment. */
  lemma {:induction false} SplitPrefix(a: string, rest: string)
    requires '.' !in a
    ensures Split(a + rest) == [a + Split(rest)[0]] + Split(rest)[1..]
    decreases |a|
  {
    if a != [] {
      var s := a + rest;
      assert s[0] == a[0];
      assert s[1..] == a[1..] + rest;
      SplitPrefix(a[1..], rest);
      assert [a[0]] + (a[1..] + Split(rest)[0]) == a + Split(rest)[0];
    } else {
      var segs := Split(rest);
      assert a + rest == rest;
      assert a + segs[0] == segs[0];
      assert segs == [segs[0]] + segs[1..];
    }
  }

  /** Joining dot-free segments and splitting again gives the segments back. */
  lemma {:induction false} SplitJoin(segs: seq<string>)
    requires |segs| >= 1 && DotFree(segs)
    ensures Split(Join(segs)) == segs
    decreases |segs|
  {
    if |segs| == 1 {
      SplitPrefix(segs[0], "");
      assert segs[0] + "" == segs[0];
    } else {
      var tail := Join(segs[1..]);
      SplitJoin(segs[1..]);
      SplitPrefix(segs[0], "." + tail);
      assert ("." + tail)[1..] == tail;
      assert Split("." + tail) == [""] + segs[1..];
      assert segs[0] + "." + tail == segs[0] + ("." + tail);
      assert segs[0] + "" == segs[0];
    }
  }

  /** A dot-free key is a path of one segment. */
  lemma SplitOne(a: string)
    requires '.' !in a
    ensures Split(a) == [a]
  {
    SplitJoin([a]);
  }

  /** Two dot-free keys joined by a dot split back into the two keys. */
  lemma SplitTwo(a: string, b: string, s: string)
    requires '.' !in a && '.' !in b
    requires s == a + "." + b
    ensures Split(s) == [a, b]
  {
    SplitJoin([a, b]);
    assert Join([a, b]) == a + "." + Join([b]);
  }
}
