/**
 * The part of Node's `path.posix` the sandbox uses: `normalize`, `join` of two
 * arguments and `resolve` of one absolute argument. A path string is read as
 * the segments between its '/' separators; normalisation is a left fold that
 * drops empty and "." segments and lets ".." cancel the segment before it.
 */
module PosixPath {

  /** The segments between the '/' characters of `p`: "a//b/" gives ["a", "", "b", ""]. */
  function Split(p: string): (segs: seq<string>)
    ensures |segs| >= 1
    ensures forall k :: 0 <= k < |segs| ==> '/' !in segs[k]
    ensures JoinSlash(segs) == p
    decreases |p|
  {
    if p == [] then [""]
    else
      var rest := Split(p[1..]);
      if p[0] == '/' then
        [""] + rest
      else
        var segs := [[p[0]] + rest[0]] + rest[1..];
        assert segs[1..] == rest[1..];
        assert |rest| > 1 ==> JoinSlash(rest) == rest[0] + "/" + JoinSlash(rest[1..]);
        segs
  }

  /** The segments glued back together with '/' between them (`Array.prototype.join('/')`). */
  function JoinSlash(segs: seq<string>): string
    requires |segs| >= 1
    decreases |segs|
  {
    if |segs| == 1 then segs[0] else segs[0] + "/" + JoinSlash(segs[1..])
  }

  /** A segment that survives normalisation unchanged: a file or directory name. */
  predicate IsName(seg: string) {
    seg != "" && seg != "." && seg != ".." && '/' !in seg
  }

  predicate AllNames(segs: seq<string>) {
    forall k :: 0 <= k < |segs| ==> IsName(segs[k])
  }

  /** One step of Node's `normalizeString`: "" and "." vanish, ".." pops the
      last name; with nothing (or only "..") left to pop, a relative path keeps
      the ".." and an absolute one drops it. */
  function Push(stack: seq<string>, seg: string, aboveRoot: bool): (r: seq<string>)
    ensures |stack| - 1 <= |r| <= |stack| + 1
    ensures AllNames(stack) && !aboveRoot && '/' !in seg ==> AllNames(r)
  {
    if seg == "" || seg == "." then stack
    else if seg == ".." then
      if |stack| > 0 && stack[|stack| - 1] != ".." then stack[..|stack| - 1]
      else if aboveRoot then stack + [".."]
      else stack
    else stack + [seg]
  }

  /** `segs` pushed one after another onto `stack`. */
  function Collapse(stack: seq<string>, segs: seq<string>, aboveRoot: bool): (r: seq<string>)
    ensures |r| <= |stack| + |segs|
    decreases |segs|
  {
    if segs == [] then stack else Collapse(Push(stack, segs[0], aboveRoot), segs[1..], aboveRoot)
  }

  /** The absolute path whose segments are `names`. */
  function Render(names: seq<string>): string {
    if names == [] then "/" else "/" + JoinSlash(names)
  }

  /** `path.normalize(p)`. */
  function Normalize(p: string): (r: string)
    ensures p != "" && p[0] == '/' ==> r != "" && r[0] == '/'
  {
    if p == "" then "."
    else
      var absolute := p[0] == '/';
      var trailing := p[|p| - 1] == '/';
      var segs := Collapse([], Split(p), !absolute);
      if segs == [] then
        (if absolute then "/" else if trailing then "./" else ".")
      else
        (if absolute then "/" else "") + JoinSlash(segs) + (if trailing then "/" else "")
  }

  /** `path.join(a, b)`: the non-empty arguments joined with '/', then normalised. */
  function Join(a: string, b: string): (r: string)
    ensures a != "" && a[0] == '/' ==> r != "" && r[0] == '/'
  {
    if a == "" && b == "" then "."
    else if a == "" then Normalize(b)
    else if b == "" then Normalize(a)
    else Normalize(a + "/" + b)
  }

  /** `path.resolve(p)` for an absolute `p`: the working directory is never
      consulted, and the result carries no trailing '/'. */
  function ResolveAbsolute(p: string): (r: string)
    requires p != "" && p[0] == '/'
    ensures r != "" && r[0] == '/'
    ensures r == "/" || r[|r| - 1] != '/'
  {
    var names := Collapse([], Split(p + "/"), false);
    CollapseKeepsNames([], Split(p + "/"));
    if names == [] then "/"
    else
      JoinSlashLast(names);
      var last := names[|names| - 1];
      assert last[|last| - 1] in last;
      Render(names)
  }

  // ---------------------------------------------------------------------------
  // Splitting and joining

  lemma SplitName(x: string)
    requires '/' !in x
    ensures Split(x) == [x]
    decreases |x|
  {
    if x != [] {
      SplitName(x[1..]);
      assert [x[0]] + x[1..] == x;
    }
  }

  /** Splitting distributes over a '/' between two strings. */
  lemma {:induction false} SplitConcat(a: string, b: string)
    ensures Split(a + "/" + b) == Split(a) + Split(b)
    decreases |a|
  {
    if a == [] {
      assert a + "/" + b == "/" + b;
      assert ("/" + b)[1..] == b;
    } else {
      assert (a + "/" + b)[1..] == a[1..] + "/" + b;
      assert (a + "/" + b)[0] == a[0];
      SplitConcat(a[1..], b);
    }
  }

  /** Split undoes JoinSlash when no segment holds a '/'. */
  lemma {:induction false} SplitJoinSlash(segs: seq<string>)
    requires |segs| >= 1
    requires forall k :: 0 <= k < |segs| ==> '/' !in segs[k]
    ensures Split(JoinSlash(segs)) == segs
    decreases |segs|
  {
    SplitName(segs[0]);
    if |segs| > 1 {
      SplitJoinSlash(segs[1..]);
      SplitConcat(segs[0], JoinSlash(segs[1..]));
      assert [segs[0]] + segs[1..] == segs;
    }
  }

  lemma JoinSlashLast(segs: seq<string>)
    requires |segs| >= 1 && segs[|segs| - 1] != ""
    ensures var j := JoinSlash(segs); j != "" && j[|j| - 1] == segs[|segs| - 1][|segs[|segs| - 1]| - 1]
    decreases |segs|
  {
    if |segs| > 1 {
      JoinSlashLast(segs[1..]);
    }
  }

  /** Appending a segment adds a '/' and the segment. */
  lemma {:induction false} JoinSlashSnoc(segs: seq<string>, x: string)
    requires |segs| >= 1
    ensures JoinSlash(segs + [x]) == JoinSlash(segs) + "/" + x
    decreases |segs|
  {
    if |segs| > 1 {
      assert (segs + [x])[1..] == segs[1..] + [x];
      JoinSlashSnoc(segs[1..], x);
    }
  }

  /** A rendered path ends with a '/' and its last name. */
  lemma RenderSnoc(names: seq<string>, x: string)
    ensures var r := Render(names + [x]); |r| > |x| && r[0] == '/' && r[|r| - |x| - 1..] == "/" + x
  {
    var r := Render(names + [x]);
    if names != [] {
      JoinSlashSnoc(names, x);
      var front := "/" + JoinSlash(names);
      assert r == front + ("/" + x);
      assert r[|r| - |x| - 1..] == "/" + x;
    } else {
      assert names + [x] == [x];
      assert r == "/" + x;
    }
  }

  /** The segments of a rendered absolute path. */
  lemma SplitRender(names: seq<string>)
    requires forall k :: 0 <= k < |names| ==> '/' !in names[k]
    ensures Split(Render(names)) == if names == [] then ["", ""] else [""] + names
  {
    if names == [] {
      SplitConcat("", "");
    } else {
      SplitConcat("", JoinSlash(names));
      assert "" + "/" + JoinSlash(names) == Render(names);
      SplitJoinSlash(names);
    }
  }

  // ---------------------------------------------------------------------------
  // Collapsing

  /** Collapsing is a fold: two runs in a row are one run over the concatenation. */
  lemma {:induction false} CollapseAppend(stack: seq<string>, xs: seq<string>, ys: seq<string>, aboveRoot: bool)
    ensures Collapse(stack, xs + ys, aboveRoot) == Collapse(Collapse(stack, xs, aboveRoot), ys, aboveRoot)
    decreases |xs|
  {
    if xs == [] {
      assert xs + ys == ys;
    } else {
      assert (xs + ys)[0] == xs[0];
      assert (xs + ys)[1..] == xs[1..] + ys;
      CollapseAppend(Push(stack, xs[0], aboveRoot), xs[1..], ys, aboveRoot);
    }
  }

  /** Names are pushed as they are. */
  lemma {:induction false} CollapseNames(stack: seq<string>, names: seq<string>, aboveRoot: bool)
    requires AllNames(names)
    ensures Collapse(stack, names, aboveRoot) == stack + names
    decreases |names|
  {
    if names != [] {
      CollapseNames(stack + [names[0]], names[1..], aboveRoot);
      assert stack + [names[0]] + names[1..] == stack + names;
    }
  }

  /** Collapsing without climbing above the root keeps a stack of names only. */
  lemma {:induction false} CollapseKeepsNames(stack: seq<string>, segs: seq<string>)
    requires AllNames(stack)
    requires forall k :: 0 <= k < |segs| ==> '/' !in segs[k]
    ensures AllNames(Collapse(stack, segs, false))
    decreases |segs|
  {
    if segs != [] {
      CollapseKeepsNames(Push(stack, segs[0], false), segs[1..]);
    }
  }

  /** Empty segments (doubled or trailing separators) change nothing. */
  lemma CollapseEmpties(stack: seq<string>, segs: seq<string>, aboveRoot: bool)
    requires forall k :: 0 <= k < |segs| ==> segs[k] == ""
    ensures Collapse(stack, segs, aboveRoot) == stack
    decreases |segs|
  {
    if segs != [] {
      CollapseEmpties(stack, segs[1..], aboveRoot);
    }
  }

  /** A rendered canonical path, possibly followed by empty segments, collapses to its names. */
  lemma CollapseRendered(names: seq<string>, tail: seq<string>)
    requires AllNames(names)
    requires forall k :: 0 <= k < |tail| ==> tail[k] == ""
    ensures Collapse([], [""] + names + tail, false) == names
  {
    var front := [""] + names;
    CollapseAppend([], front, tail, false);
    CollapseAppend([], [""], names, false);
    assert Collapse([], [""], false) == [];
    CollapseNames([], names, false);
    assert Collapse([], front, false) == names;
    CollapseEmpties(names, tail, false);
  }

  /** `path.normalize` on an absolute path that is already canonical returns it unchanged. */
  lemma NormalizeRendered(names: seq<string>)
    requires AllNames(names)
    ensures Normalize(Render(names)) == Render(names)
  {
    SplitRender(names);
    var p := Render(names);
    if names == [] {
      CollapseEmpties([], ["", ""], false);
    } else {
      JoinSlashLast(names);
      var last := names[|names| - 1];
      assert last[|last| - 1] in last;
      assert p[|p| - 1] != '/';
      CollapseRendered(names, []);
      assert [""] + names + [] == [""] + names;
    }
  }

  /** `path.resolve` after `path.normalize` of an absolute path is one collapse
      of the path's own segments: the trailing '/' that `normalize` may keep
      is what `resolve` drops. */
  lemma ResolveNormalized(p: string)
    requires p != "" && p[0] == '/'
    ensures ResolveAbsolute(Normalize(p)) == Render(Collapse([], Split(p), false))
  {
    var n := Collapse([], Split(p), false);
    CollapseKeepsNames([], Split(p));
    var q := Normalize(p);
    SplitConcat(q, "");
    assert q + "/" == q + "/" + "";
    if n == [] {
      ResolveNormalizedRoot(p, q);
    } else {
      ResolveNormalizedNames(p, q, n);
    }
  }

  lemma ResolveNormalizedRoot(p: string, q: string)
    requires p != "" && p[0] == '/'
    requires Collapse([], Split(p), false) == [] && q == Normalize(p)
    requires Split(q + "/") == Split(q) + Split("")
    ensures Collapse([], Split(q + "/"), false) == []
  {
    assert q == "/";
    SplitRender([]);
    assert Split(q + "/") == ["", "", ""];
    CollapseEmpties([], ["", "", ""], false);
  }

  lemma ResolveNormalizedNames(p: string, q: string, n: seq<string>)
    requires p != "" && p[0] == '/'
    requires n == Collapse([], Split(p), false) && n != [] && AllNames(n)
    requires q == Normalize(p)
    requires Split(q + "/") == Split(q) + Split("")
    ensures Collapse([], Split(q + "/"), false) == n
  {
    NormalizeNames(p, n);
    if p[|p| - 1] == '/' {
      ResolveTrailing(q, n);
    } else {
      ResolvePlain(q, n);
    }
  }

  lemma ResolveTrailing(q: string, n: seq<string>)
    requires n != [] && AllNames(n) && q == Render(n) + "/"
    requires Split(q + "/") == Split(q) + Split("")
    ensures Collapse([], Split(q + "/"), false) == n
  {
    SplitRender(n);
    assert q == Render(n) + "/" + "";
    SplitConcat(Render(n), "");
    assert Split(q + "/") == [""] + n + ["", ""];
    CollapseRendered(n, ["", ""]);
  }

  lemma ResolvePlain(q: string, n: seq<string>)
    requires n != [] && AllNames(n) && q == Render(n)
    requires Split(q + "/") == Split(q) + Split("")
    ensures Collapse([], Split(q + "/"), false) == n
  {
    SplitRender(n);
    assert Split(q + "/") == [""] + n + [""];
    CollapseRendered(n, [""]);
  }

  lemma NormalizeNames(p: string, n: seq<string>)
    requires p != "" && p[0] == '/'
    requires n == Collapse([], Split(p), false) && n != []
    ensures Normalize(p) == Render(n) + (if p[|p| - 1] == '/' then "/" else "")
  {
  }
}
