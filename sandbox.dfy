/**
 * The workspace sandbox: `getSafeAbsolutePath` joins a client path onto the
 * bot directory, resolves it, and accepts the result only when it begins with
 * the bot directory's path AS A STRING. The check is modelled as written: a
 * sibling such as `<dir>/user_bot_x` passes it (lemma SiblingAccepted).
 */
module Sandbox {
  import opened Results
  import opened JsStrings
  import opened PosixPath

  const BotFolder := "user_bot"
  const UploadFolder := "temp_uploads"
  const TraversalMessage := "Acesso negado: Tentativa de Path Traversal."

  /** What a client sent as a path: a string, or a JSON value of another type. */
  datatype ClientPath = NotAString | Text(s: string)

  /** The text the sandbox works on: a value that is not a string counts as the empty path. */
  function ClientText(clientPath: ClientPath): (client: string)
    ensures clientPath.Text? ==> client == clientPath.s
    ensures clientPath.NotAString? ==> client == ""
  {
    if clientPath.Text? then clientPath.s else ""
  }

  /** `BOT_DIR`, as names: `path.join(__dirname, 'user_bot')`, where `install`
      holds the names of the (canonical, absolute) `__dirname`. */
  function BotRoot(install: seq<string>): seq<string> {
    install + [BotFolder]
  }

  /** `BOT_DIR` as a string: an absolute path (lemma FoldersUnderInstall: it ends in "/user_bot"). */
  function BotDir(install: seq<string>): (dir: string)
    ensures dir != "" && dir[0] == '/'
  {
    RenderSnoc(install, BotFolder);
    Render(BotRoot(install))
  }

  /** `UPLOAD_DIR`: `path.join(__dirname, 'temp_uploads')`. */
  function UploadDir(install: seq<string>): (dir: string)
    ensures dir != "" && dir[0] == '/'
  {
    RenderSnoc(install, UploadFolder);
    Render(install + [UploadFolder])
  }

  /** `BOT_DIR` and `UPLOAD_DIR` are the folders "user_bot" and "temp_uploads"
      directly under `__dirname`: each ends with a '/' and its folder name. */
  lemma FoldersUnderInstall(install: seq<string>)
    ensures var dir := BotDir(install);
      |dir| > |BotFolder| && dir[|dir| - |BotFolder| - 1..] == "/" + BotFolder
    ensures var dir := UploadDir(install);
      |dir| > |UploadFolder| && dir[|dir| - |UploadFolder| - 1..] == "/" + UploadFolder
  {
    RenderSnoc(install, BotFolder);
    RenderSnoc(install, UploadFolder);
  }

  /** Where a client path lands: its segments collapsed onto the bot directory's names. */
  function Landing(install: seq<string>, client: string): seq<string> {
    Collapse(BotRoot(install), Split(client), false)
  }

  /** `getSafeAbsolutePath(clientPath)`: `path.resolve(path.join(BOT_DIR, clientPath))`,
      refused with the "Path Traversal" error unless it starts with `path.normalize(BOT_DIR)`. */
  function GetSafeAbsolutePath(install: seq<string>, clientPath: ClientPath): (r: Result<string>)
    requires AllNames(install)
    ensures r.Ok? ==> StartsWith(r.value, BotDir(install))
    ensures r.Ok? ==> r.value == Render(Landing(install, ClientText(clientPath)))
    ensures r.Err? ==> r.error == TraversalMessage
    ensures r.Err? <==> !StartsWith(Render(Landing(install, ClientText(clientPath))), BotDir(install))
  {
    var client := ClientText(clientPath);
    var targetPath := Join(BotDir(install), client);
    var resolvedPath := ResolveAbsolute(targetPath);
    var botDirNormalized := Normalize(BotDir(install));
    ResolvedIsLanding(install, client);
    BotRootNames(install);
    NormalizeRendered(BotRoot(install));
    assert resolvedPath == Render(Landing(install, client));
    assert botDirNormalized == BotDir(install);
    if !StartsWith(resolvedPath, botDirNormalized) then Err(TraversalMessage) else Ok(resolvedPath)
  }

  lemma BotRootNames(install: seq<string>)
    requires AllNames(install)
    ensures AllNames(BotRoot(install)) && |BotRoot(install)| == |install| + 1
  {
    assert '/' !in BotFolder;
  }

  /** `path.resolve(path.join(BOT_DIR, c))` is the landing of `c`, rendered. */
  lemma ResolvedIsLanding(install: seq<string>, client: string)
    requires AllNames(install)
    ensures var target := Join(BotDir(install), client);
      && target != "" && target[0] == '/'
      && ResolveAbsolute(target) == Render(Landing(install, client))
  {
    var root := BotRoot(install);
    BotRootNames(install);
    var dir := BotDir(install);
    SplitRender(root);
    CollapseRendered(root, []);
    assert [""] + root + [] == [""] + root;
    if client == "" {
      ResolveNormalized(dir);
      assert Split(client) == [""];
      assert Collapse(root, [""], false) == root;
    } else {
      ResolveNormalized(dir + "/" + client);
      SplitConcat(dir, client);
      CollapseAppend([], [""] + root, Split(client), false);
    }
  }

  // ---------------------------------------------------------------------------
  // What the string-prefix check accepts

  /** A '/'-free prefix cannot reach past a separator. */
  lemma PrefixBeforeSlash(x: string, rest: string, u: string)
    requires '/' !in u
    requires rest == "" || rest[0] == '/'
    ensures StartsWith(x + rest, u) <==> StartsWith(x, u)
  {
    if |u| <= |x| {
      assert (x + rest)[..|u|] == x[..|u|];
    } else if |u| <= |x + rest| {
      assert (x + rest)[..|u|][|x|] == '/';
      assert u[|x|] != '/';
    }
  }

  /** Two '/'-separated strings: the first components must agree exactly. */
  lemma PrefixAtSlash(x: string, y: string, a: string, b: string)
    requires '/' !in x && '/' !in a
    ensures StartsWith(x + "/" + y, a + "/" + b) <==> x == a && StartsWith(y, b)
  {
    var s, p := x + "/" + y, a + "/" + b;
    if |p| <= |s| {
      if |x| < |a| {
        assert s[..|p|][|x|] == '/';
        assert p[|x|] == a[|x|] != '/';
      } else if |x| > |a| {
        assert p[|a|] == '/';
        assert s[..|p|][|a|] == x[|a|] != '/';
      } else if x == a {
        assert s[..|p|] == a + "/" + y[..|b|];
        assert (a + "/" + y[..|b|])[|a| + 1..] == y[..|b|];
        assert p[|a| + 1..] == b;
      } else {
        assert s[..|p|][..|a|] == x;
        assert p[..|a|] == a;
      }
    }
  }

  /** A name holds no '/', so it cannot start with a path of two names. */
  lemma NoSlashNoPrefix(name: string, first: string, tail: string)
    requires '/' !in name
    ensures !StartsWith(name, first + "/" + tail)
  {
    var t := first + "/" + tail;
    assert t[|first|] == '/';
    if |t| <= |name| {
      assert name[..|t|][|first|] == name[|first|];
      assert name[|first|] in name;
    }
  }

  /** `n` runs through `d` when its head is `d`'s head and its tail runs through `d`'s tail. */
  lemma ConsPrefix(n: seq<string>, d: seq<string>)
    requires 0 < |d| < |n|
    ensures n[|d|] == n[1..][|d| - 1]
    ensures n[..|d|] == d <==> n[0] == d[0] && n[1..][..|d| - 1] == d[1..]
  {
    assert n[..|d|] == [n[0]] + n[1..][..|d| - 1];
    assert d == [d[0]] + d[1..];
  }

  /** The joined names `n` start with the joined `d + [u]` exactly when `n`
      runs through every name of `d` and then has a name that starts with `u`. */
  lemma {:induction false} JoinSlashPrefix(n: seq<string>, d: seq<string>, u: string)
    requires |n| >= 1 && AllNames(n) && AllNames(d) && IsName(u)
    ensures StartsWith(JoinSlash(n), JoinSlash(d + [u]))
        <==> |n| > |d| && n[..|d|] == d && StartsWith(n[|d|], u)
    decreases |d|
  {
    var rest := if |n| == 1 then "" else "/" + JoinSlash(n[1..]);
    assert JoinSlash(n) == n[0] + rest;
    if d == [] {
      assert d + [u] == [u];
      PrefixBeforeSlash(n[0], rest, u);
    } else {
      var tail := JoinSlash(d[1..] + [u]);
      assert (d + [u])[1..] == d[1..] + [u];
      assert JoinSlash(d + [u]) == d[0] + "/" + tail;
      if |n| == 1 {
        NoSlashNoPrefix(n[0], d[0], tail);
      } else {
        PrefixAtSlash(n[0], JoinSlash(n[1..]), d[0], tail);
        JoinSlashPrefix(n[1..], d[1..], u);
        if |n| > |d| {
          ConsPrefix(n, d);
        }
      }
    }
  }

  /** The check `resolvedPath.startsWith(botDirNormalized)`, read on names: the
      resolved path passes exactly when it runs through `__dirname` and then
      has a name beginning with "user_bot" — the bot directory itself, anything
      inside it, or anything inside a sibling such as "user_bot_x". */
  lemma PrefixCheckMeaning(install: seq<string>, n: seq<string>)
    requires AllNames(install) && AllNames(n)
    ensures StartsWith(Render(n), BotDir(install))
        <==> |n| > |install| && n[..|install|] == install && StartsWith(n[|install|], BotFolder)
  {
    BotRootNames(install);
    if n == [] {
      assert |Render(BotRoot(install))| > 1;
    } else {
      JoinSlashPrefix(n, install, BotFolder);
      var a, b := JoinSlash(n), JoinSlash(BotRoot(install));
      assert StartsWith("/" + a, "/" + b) <==> StartsWith(a, b) by {
        if |b| <= |a| {
          assert ("/" + a)[..|b| + 1] == "/" + a[..|b|];
          assert ("/" + a[..|b|])[1..] == a[..|b|];
          assert ("/" + b)[1..] == b;
        }
      }
    }
  }

  /** Which client paths `getSafeAbsolutePath` accepts, in terms of names. */
  lemma AcceptedExactly(install: seq<string>, clientPath: ClientPath)
    requires AllNames(install)
    ensures var n := Landing(install, ClientText(clientPath));
      GetSafeAbsolutePath(install, clientPath).Ok? <==>
        (|n| > |install| && n[..|install|] == install && StartsWith(n[|install|], BotFolder))
  {
    BotRootNames(install);
    CollapseKeepsNames(BotRoot(install), Split(ClientText(clientPath)));
    PrefixCheckMeaning(install, Landing(install, ClientText(clientPath)));
  }

  // ---------------------------------------------------------------------------
  // Consequences

  /** A missing or non-string path, "", "/", "." and "./" all resolve to the bot
      directory itself (the file list defaults an absent path to "/"). */
  lemma RootSpellings(install: seq<string>)
    requires AllNames(install)
    ensures GetSafeAbsolutePath(install, NotAString) == Ok(BotDir(install))
    ensures GetSafeAbsolutePath(install, Text("")) == Ok(BotDir(install))
    ensures GetSafeAbsolutePath(install, Text("/")) == Ok(BotDir(install))
    ensures GetSafeAbsolutePath(install, Text(".")) == Ok(BotDir(install))
    ensures GetSafeAbsolutePath(install, Text("./")) == Ok(BotDir(install))
  {
    var root := BotRoot(install);
    SplitConcat("", "");
    assert Split("/") == ["", ""];
    SplitName(".");
    SplitConcat(".", "");
    assert "." + "/" + "" == "./";
    assert Split("./") == [".", ""];
    assert Landing(install, "") == root;
    assert Landing(install, "/") == root;
    assert Landing(install, ".") == root;
    assert Landing(install, "./") == root;
    BotRootNames(install);
    assert StartsWith(BotDir(install), BotDir(install));
  }

  /** A leading '/' does not override the root: it is joined under it. */
  lemma LeadingSlashJoinsUnderRoot(install: seq<string>, s: string)
    requires AllNames(install)
    ensures GetSafeAbsolutePath(install, Text("/" + s)) == GetSafeAbsolutePath(install, Text(s))
  {
    SplitConcat("", s);
    assert "" + "/" + s == "/" + s;
    assert Landing(install, "/" + s) == Landing(install, s);
  }

  /** The names of a segment list once "" and "." are dropped. */
  function Names(segs: seq<string>): seq<string> {
    if segs == [] then []
    else (if segs[0] == "" || segs[0] == "." then [] else [segs[0]]) + Names(segs[1..])
  }

  /** Without ".." nothing is popped: the segments are pushed as names. */
  lemma {:induction false} CollapseWithoutParent(stack: seq<string>, segs: seq<string>)
    requires forall k :: 0 <= k < |segs| ==> '/' !in segs[k] && segs[k] != ".."
    ensures Collapse(stack, segs, false) == stack + Names(segs)
    ensures AllNames(Names(segs))
    decreases |segs|
  {
    if segs != [] {
      CollapseWithoutParent(Push(stack, segs[0], false), segs[1..]);
      assert AllNames(Names(segs)) by {
        var head := if segs[0] == "" || segs[0] == "." then [] else [segs[0]];
        assert Names(segs) == head + Names(segs[1..]);
      }
    }
  }

  /** A client path with no ".." segment is accepted, and lands inside the bot
      directory: the root's names followed by the client's own names. */
  lemma DescendantAccepted(install: seq<string>, client: string)
    requires AllNames(install)
    requires ".." !in Split(client)
    ensures GetSafeAbsolutePath(install, Text(client)) == Ok(Render(BotRoot(install) + Names(Split(client))))
  {
    LandingWithoutParent(install, client);
    DescendantPasses(install, client);
    assert ClientText(Text(client)) == client;
  }

  /** Without ".." the check lets the path through. */
  lemma DescendantPasses(install: seq<string>, client: string)
    requires AllNames(install)
    requires ".." !in Split(client)
    ensures GetSafeAbsolutePath(install, Text(client)).Ok?
  {
    LandingHead(install, client);
    assert BotFolder[..|BotFolder|] == BotFolder;
    assert ClientText(Text(client)) == client;
    AcceptedExactly(install, Text(client));
  }

  lemma LandingHead(install: seq<string>, client: string)
    requires ".." !in Split(client)
    ensures var n := Landing(install, client);
      |n| > |install| && n[..|install|] == install && n[|install|] == BotFolder
  {
    var n := Landing(install, client);
    LandingWithoutParent(install, client);
    assert n == install + ([BotFolder] + Names(Split(client)));
  }

  /** Without ".." the client's names are appended to the bot directory's. */
  lemma LandingWithoutParent(install: seq<string>, client: string)
    requires ".." !in Split(client)
    ensures Landing(install, client) == BotRoot(install) + Names(Split(client))
  {
    var segs := Split(client);
    forall k | 0 <= k < |segs| ensures '/' !in segs[k] && segs[k] != ".." {
      assert segs[k] in segs;
    }
    CollapseWithoutParent(BotRoot(install), segs);
  }

  lemma LandingClimb(install: seq<string>, name: string)
    requires AllNames(install) && IsName(name)
    ensures Landing(install, "../" + name) == install + [name]
  {
    SplitName("..");
    SplitName(name);
    SplitConcat("..", name);
    assert ".." + "/" + name == "../" + name;
    var root := BotRoot(install);
    assert Split("../" + name) == ["..", name];
    assert Push(root, "..", false) == install;
    assert Push(install, name, false) == install + [name];
    assert Collapse(install + [name], [], false) == install + [name];
    assert Collapse(install, [name], false) == install + [name];
    assert Collapse(root, ["..", name], false) == Collapse(install, [name], false);
  }

  /** Climbing out to a name that does not start with "user_bot" is refused. */
  lemma ClimbOutRejected(install: seq<string>, name: string)
    requires AllNames(install) && IsName(name) && !StartsWith(name, BotFolder)
    ensures GetSafeAbsolutePath(install, Text("../" + name)) == Err(TraversalMessage)
  {
    LandingClimb(install, name);
    AcceptedExactly(install, Text("../" + name));
    assert (install + [name])[|install|] == name;
  }

  /** The check is a string prefix test, so a sibling directory whose name
      begins with "user_bot" is accepted although it lies outside the root. */
  lemma SiblingAccepted(install: seq<string>, name: string)
    requires AllNames(install) && IsName(name) && StartsWith(name, BotFolder)
    ensures GetSafeAbsolutePath(install, Text("../" + name)) == Ok(Render(install + [name]))
  {
    LandingClimb(install, name);
    AcceptedExactly(install, Text("../" + name));
    assert (install + [name])[..|install|] == install;
    assert (install + [name])[|install|] == name;
  }
}
