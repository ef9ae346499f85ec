/** Go's `path.Clean` and `path.Join`, specified lexically over slash-separated
    segments: split on '/', drop empty and "." segments, let ".." remove the
    segment before it (at the root it is dropped, in a relative path it is kept
    when there is nothing to remove), and glue the rest back with '/'. */
module GoPath {

  /** No segment contains a slash. */
  ghost predicate NoSlash(segs: seq<string>) {
    forall k :: 0 <= k < |segs| ==> '/' !in segs[k]
  }

  /** Segments that survive cleaning: non-empty, not ".", free of slashes. */
  ghost predicate CleanSegments(segs: seq<string>) {
    forall k :: 0 <= k < |segs| ==> segs[k] != "" && segs[k] != "." && '/' !in segs[k]
  }

  /** A segment that cleaning keeps as it is: not empty, not "." or "..", and
      free of slashes. */
  ghost predicate Name(w: string) {
    w != "" && w != "." && w != ".." && '/' !in w
  }

  /** The pieces of `p` between slashes; there is always at least one. */
  function Split(p: string): (segs: seq<string>)
    ensures |segs| >= 1
    decreases |p|
  {
    if |p| == 0 then [""]
    else
      var rest := Split(p[1..]);
      if p[0] == '/' then [""] + rest else [[p[0]] + rest[0]] + rest[1..]
  }

  /** Resolves the segments left to right on top of the stack `acc`. */
  function Resolve(segs: seq<string>, rooted: bool, acc: seq<string>): seq<string>
    decreases |segs|
  {
    if |segs| == 0 then acc
    else if segs[0] == "" || segs[0] == "." then Resolve(segs[1..], rooted, acc)
    else if segs[0] == ".." then
      if |acc| > 0 && acc[|acc| - 1] != ".." then Resolve(segs[1..], rooted, acc[..|acc| - 1])
      else if rooted then Resolve(segs[1..], rooted, acc)
      else Resolve(segs[1..], rooted, acc + [".."])
    else Resolve(segs[1..], rooted, acc + [segs[0]])
  }

  /** The segments glued with '/'. Non-empty segments give a string that ends with
      the last segment's last character. */
  function JoinSlash(segs: seq<string>): (r: string)
    ensures |segs| == 0 ==> r == ""
    ensures |segs| > 0 && segs[|segs| - 1] != "" ==>
      r != "" && r[|r| - 1] == segs[|segs| - 1][|segs[|segs| - 1]| - 1]
    decreases |segs|
  {
    if |segs| == 0 then "" else if |segs| == 1 then segs[0] else segs[0] + "/" + JoinSlash(segs[1..])
  }

  /** `path.Clean`. */
  function Clean(p: string): string {
    if p == "" then "."
    else
      var rooted := p[0] == '/';
      var segs := Resolve(Split(p), rooted, []);
      var body := JoinSlash(segs);
      if rooted then "/" + body else if body == "" then "." else body
  }

  /** `path.Join` of two elements: the non-empty elements joined with '/', then
      cleaned; "" when both are empty. */
  function Join(a: string, b: string): string {
    if a == "" && b == "" then "" else if a == "" then Clean(b) else Clean(a + "/" + b)
  }

  /** No piece of a split contains a slash. */
  lemma {:induction false} SplitNoSlashes(p: string)
    ensures NoSlash(Split(p))
    decreases |p|
  {
    if |p| > 0 {
      SplitNoSlashes(p[1..]);
    }
  }

  /** Resolving slash-free segments on top of clean ones leaves only clean
      segments: every empty, "." or slash-carrying piece is gone. */
  lemma {:induction false} ResolveClean(segs: seq<string>, rooted: bool, acc: seq<string>)
    requires NoSlash(segs) && CleanSegments(acc)
    ensures CleanSegments(Resolve(segs, rooted, acc))
    decreases |segs|
  {
    if |segs| > 0 {
      if segs[0] == "" || segs[0] == "." {
        ResolveClean(segs[1..], rooted, acc);
      } else if segs[0] == ".." {
        if |acc| > 0 && acc[|acc| - 1] != ".." {
          ResolveClean(segs[1..], rooted, acc[..|acc| - 1]);
        } else if rooted {
          ResolveClean(segs[1..], rooted, acc);
        } else {
          ResolveClean(segs[1..], rooted, acc + [".."]);
        }
      } else {
        ResolveClean(segs[1..], rooted, acc + [segs[0]]);
      }
    }
  }

  /** `path.Clean` never returns "", keeps a rooted path rooted, and ends in '/'
      only when it is the root "/" itself. */
  lemma CleanSpec(p: string)
    ensures Clean(p) != ""
    ensures p != "" && p[0] == '/' ==> Clean(p)[0] == '/'
    ensures Clean(p)[|Clean(p)| - 1] == '/' ==> Clean(p) == "/"
  {
    if p != "" {
      var segs := Resolve(Split(p), p[0] == '/', []);
      SplitNoSlashes(p);
      ResolveClean(Split(p), p[0] == '/', []);
      if |segs| > 0 {
        assert segs[|segs| - 1] != "" && '/' !in segs[|segs| - 1];
      }
    }
  }

  /** `path.Join` is "" exactly when both parts are, ends in '/' only when it is
      "/", and keeps a rooted first part rooted. */
  lemma JoinSpec(a: string, b: string)
    ensures Join(a, b) == "" <==> a == "" && b == ""
    ensures Join(a, b) != "" && Join(a, b)[|Join(a, b)| - 1] == '/' ==> Join(a, b) == "/"
    ensures a != "" && a[0] == '/' ==> Join(a, b)[0] == '/'
  {
    if a == "" && b != "" {
      CleanSpec(b);
    } else if a != "" {
      CleanSpec(a + "/" + b);
    }
  }

  /** A slash-free string is a single segment. */
  lemma {:induction false} SplitNoSlash(w: string)
    requires '/' !in w
    ensures Split(w) == [w]
    decreases |w|
  {
    if |w| > 0 {
      SplitNoSlash(w[1..]);
      assert [w[0]] + w[1..] == w;
    }
  }

  /** The first slash ends the first segment. */
  lemma {:induction false} SplitAt(x: string, y: string)
    requires '/' !in x
    ensures Split(x + "/" + y) == [x] + Split(y)
    decreases |x|
  {
    if |x| == 0 {
      assert x + "/" + y == "/" + y;
      assert ("/" + y)[1..] == y;
    } else {
      SplitAt(x[1..], y);
      assert (x + "/" + y)[1..] == x[1..] + "/" + y;
      assert [x[0]] + x[1..] == x;
    }
  }

  /** Splitting undoes gluing: slash-free segments glued with '/' split back into
      exactly those segments. */
  lemma {:induction false} SplitJoinSlash(segs: seq<string>)
    requires |segs| >= 1 && NoSlash(segs)
    ensures Split(JoinSlash(segs)) == segs
    decreases |segs|
  {
    if |segs| == 1 {
      SplitNoSlash(segs[0]);
    } else {
      SplitJoinSlash(segs[1..]);
      SplitAt(segs[0], JoinSlash(segs[1..]));
      assert [segs[0]] + segs[1..] == segs;
    }
  }

  /** `path.Join` of a rooted path: the root followed by the resolved segments. */
  lemma JoinRooted(a: string, b: string, segs: seq<string>)
    requires a != "" && a[0] == '/'
    requires Resolve(Split(a + "/" + b), true, []) == segs
    ensures Join(a, b) == "/" + JoinSlash(segs)
  {
  }
}
