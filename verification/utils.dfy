/** `joinPaths` and `lastChar` from utils.go: how a group's base path and a
    relative path combine into the path a route is registered under. */
module Utils {
  import opened Values
  import GoPath

  /** The final character of a string; `None` stands for the panic Go raises on
      the empty string. */
  function LastChar(s: string): (c: Option<char>)
    ensures c.Some? <==> s != ""
    ensures c.Some? ==> c.value == s[|s| - 1]
  {
    if |s| == 0 then None else Some(s[|s| - 1])
  }

  /** `joinPaths`: `path.Join` of the two paths, keeping a trailing '/' of the
      relative path, which `path.Join` would drop. */
  function JoinPaths(absolutePath: string, relativePath: string): string {
    if |relativePath| == 0 then absolutePath
    else
      var finalPath := GoPath.Join(absolutePath, relativePath);
      var appendSlash := LastChar(relativePath) == Some('/') && LastChar(finalPath) != Some('/');
      if appendSlash then finalPath + "/" else finalPath
  }

  /** What `joinPaths` promises. */
  lemma JoinPathsSpec(absolutePath: string, relativePath: string)
    // an empty relative path leaves the absolute path as it is
    ensures relativePath == "" ==> JoinPaths(absolutePath, relativePath) == absolutePath
    // otherwise the result is path.Join's, plus at most one '/'
    ensures relativePath != "" ==>
      || JoinPaths(absolutePath, relativePath) == GoPath.Join(absolutePath, relativePath)
      || JoinPaths(absolutePath, relativePath) == GoPath.Join(absolutePath, relativePath) + "/"
    ensures relativePath != "" && relativePath[|relativePath| - 1] != '/' ==>
      JoinPaths(absolutePath, relativePath) == GoPath.Join(absolutePath, relativePath)
    // a trailing '/' on the relative path survives, and never doubles
    ensures relativePath != "" ==>
      var r := JoinPaths(absolutePath, relativePath);
      && r != ""
      && (r[|r| - 1] == '/' <==> relativePath[|relativePath| - 1] == '/' || GoPath.Join(absolutePath, relativePath) == "/")
      && (|r| >= 2 ==> !(r[|r| - 1] == '/' && r[|r| - 2] == '/'))
    // a rooted base stays rooted
    ensures absolutePath != "" && absolutePath[0] == '/' ==>
      var r := JoinPaths(absolutePath, relativePath);
      r != "" && r[0] == '/'
  {
    GoPath.JoinSpec(absolutePath, relativePath);
    if relativePath != "" {
      var f := GoPath.Join(absolutePath, relativePath);
      var r := JoinPaths(absolutePath, relativePath);
      if LastChar(relativePath) == Some('/') && LastChar(f) != Some('/') {
        assert r == f + "/";
      } else {
        assert r == f;
      }
    }
  }

  // The cases below are the ones the group tests of the repository expect. For
  // each, the joined string splits into the listed segments, those resolve to the
  // listed names, and joinPaths glues the names back under the root.

  lemma SplitRootV1()
    ensures GoPath.Split("/" + "/" + "v1") == ["", "", "v1"]
  {
    assert GoPath.JoinSlash(["", "", "v1"]) == "/" + "/" + "v1";
    GoPath.SplitJoinSlash(["", "", "v1"]);
  }

  lemma ResolveRootV1()
    ensures GoPath.Resolve(["", "", "v1"], true, []) == ["v1"]
  {
  }

  lemma JoinRootV1()
    ensures JoinPaths("/", "v1") == "/v1"
  {
    SplitRootV1();
    ResolveRootV1();
    GoPath.JoinRooted("/", "v1", ["v1"]);
    assert GoPath.JoinSlash(["v1"]) == "v1";
  }

  lemma SplitRootHello()
    ensures GoPath.Split("/" + "/" + "/hello") == ["", "", "", "hello"]
  {
    assert GoPath.JoinSlash(["", "", "", "hello"]) == "/" + "/" + "/hello";
    GoPath.SplitJoinSlash(["", "", "", "hello"]);
  }

  lemma ResolveRootHello()
    ensures GoPath.Resolve(["", "", "", "hello"], true, []) == ["hello"]
  {
  }

  lemma JoinRootHello()
    ensures JoinPaths("/", "/hello") == "/hello"
  {
    SplitRootHello();
    ResolveRootHello();
    GoPath.JoinRooted("/", "/hello", ["hello"]);
    assert GoPath.JoinSlash(["hello"]) == "hello";
  }

  lemma SplitHelloWorld()
    ensures GoPath.Split("/hello" + "/" + "world") == ["", "hello", "world"]
  {
    assert GoPath.JoinSlash(["", "hello", "world"]) == "/hello" + "/" + "world";
    GoPath.SplitJoinSlash(["", "hello", "world"]);
  }

  lemma ResolveHelloWorld()
    ensures GoPath.Resolve(["", "hello", "world"], true, []) == ["hello", "world"]
  {
  }

  lemma JoinHelloWorld()
    ensures JoinPaths("/hello", "world") == "/hello/world"
  {
    SplitHelloWorld();
    ResolveHelloWorld();
    GoPath.JoinRooted("/hello", "world", ["hello", "world"]);
    assert GoPath.JoinSlash(["hello", "world"]) == "hello/world";
  }

  lemma SplitV1Login()
    ensures GoPath.Split("/v1" + "/" + "/login/") == ["", "v1", "", "login", ""]
  {
    assert GoPath.JoinSlash(["", "v1", "", "login", ""]) == "/v1" + "/" + "/login/";
    GoPath.SplitJoinSlash(["", "v1", "", "login", ""]);
  }

  lemma ResolveV1Login()
    ensures GoPath.Resolve(["", "v1", "", "login", ""], true, []) == ["v1", "login"]
  {
  }

  lemma JoinV1Login()
    ensures JoinPaths("/v1", "/login/") == "/v1/login/"
  {
    SplitV1Login();
    ResolveV1Login();
    GoPath.JoinRooted("/v1", "/login/", ["v1", "login"]);
    assert GoPath.JoinSlash(["v1", "login"]) == "v1/login";
  }

  lemma SplitV1Test()
    ensures GoPath.Split("/v1" + "/" + "/test") == ["", "v1", "", "test"]
  {
    assert GoPath.JoinSlash(["", "v1", "", "test"]) == "/v1" + "/" + "/test";
    GoPath.SplitJoinSlash(["", "v1", "", "test"]);
  }

  lemma ResolveV1Test()
    ensures GoPath.Resolve(["", "v1", "", "test"], true, []) == ["v1", "test"]
  {
  }

  lemma JoinV1Test()
    ensures JoinPaths("/v1", "/test") == "/v1/test"
  {
    SplitV1Test();
    ResolveV1Test();
    GoPath.JoinRooted("/v1", "/test", ["v1", "test"]);
    assert GoPath.JoinSlash(["v1", "test"]) == "v1/test";
  }

  // "/v1/login///test" is glued one segment at a time, so that each step stays small.

  lemma GlueTest()
    ensures GoPath.JoinSlash(["", "", "test"]) == "//test"
  {
    assert GoPath.JoinSlash(["", "test"]) == "/test";
  }

  lemma GlueLoginTest()
    ensures GoPath.JoinSlash(["login", "", "", "test"]) == "login///test"
  {
    GlueTest();
    assert ["login", "", "", "test"][1..] == ["", "", "test"];
  }

  lemma GlueV1LoginTest()
    ensures GoPath.JoinSlash(["v1", "login", "", "", "test"]) == "v1/login///test"
  {
    GlueLoginTest();
    assert ["v1", "login", "", "", "test"][1..] == ["login", "", "", "test"];
  }

  lemma GlueRootV1LoginTest()
    ensures GoPath.JoinSlash(["", "v1", "login", "", "", "test"]) == "/v1/login///test"
  {
    GlueV1LoginTest();
    assert ["", "v1", "login", "", "", "test"][1..] == ["v1", "login", "", "", "test"];
  }

  lemma SplitLoginTest()
    ensures GoPath.Split("/v1/login/" + "/" + "/test") == ["", "v1", "login", "", "", "test"]
  {
    GlueRootV1LoginTest();
    GoPath.SplitJoinSlash(["", "v1", "login", "", "", "test"]);
    assert "/v1/login/" + "/" + "/test" == "/v1/login///test";
  }

  lemma ResolveLoginTest()
    ensures GoPath.Resolve(["", "v1", "login", "", "", "test"], true, []) == ["v1", "login", "test"]
  {
  }

  lemma ResolvedLoginTest()
    ensures GoPath.Join("/v1/login/", "/test") == "/" + GoPath.JoinSlash(["v1", "login", "test"])
  {
    SplitLoginTest();
    ResolveLoginTest();
    GoPath.JoinRooted("/v1/login/", "/test", ["v1", "login", "test"]);
  }

  lemma JoinLoginTest()
    ensures JoinPaths("/v1/login/", "/test") == "/v1/login/test"
  {
    ResolvedLoginTest();
    assert GoPath.JoinSlash(["v1", "login", "test"]) == "v1/login/test";
  }
}
