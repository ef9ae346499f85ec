/** The group tests of router_group_test.go, replayed on the model. The request
    test needs a tree that actually finds routes; `StaticTree` is a stand-in that
    knows static paths only, enough for the two routes the test registers. */
module Scenarios {
  import opened Values
  import opened Routers
  import opened Utils
  import opened Registration
  import opened Dispatch
  import opened Contexts
  import opened Gweb
  import opened GoStrings

  /** The first route added with exactly `path`, if any. */
  function StaticFind(routes: seq<Route>, path: string): (m: Match)
    ensures m.params == [] && !m.tsr
    ensures m.handlers.Some? <==> exists i :: 0 <= i < |routes| && routes[i].path == path
  {
    if |routes| == 0 then Match(None, [], false)
    else if routes[0].path == path then Match(Some(routes[0].handlers), [], false)
    else
      var m := StaticFind(routes[1..], path);
      assert forall i :: 1 <= i < |routes| ==> routes[i] == routes[1..][i - 1];
      m
  }

  /** A tree of static paths: exact lookups, no case-insensitive fix, and
      `CleanPath` taken as the identity. */
  function StaticTree(): TreeSemantics {
    TreeSemantics(
      (routes, path) => StaticFind(routes, path),
      (routes, path, fixTrailingSlash) => CaseFix(path, false),
      path => path)
  }

  /** `emptyHandler`, which does nothing. */
  const Empty: Handler := User(0, 0)
  /** The test's handler, which writes the request's method and its own index. */
  const Reporter: Handler := User(1, 0)

  /** `TestGroupBasic`: a group of the root gets "/hello" and two globals, its
      subgroup "world" gets "/hello/world" and four; both belong to the server. */
  method GroupBasic() {
    var s := new Server(StaticTree());
    var g := s.group.Group("/hello", [Empty]);
    g.Global([Empty]);
    JoinRootHello();
    assert |g.globalHandlers| == 2 && g.basePath == "/hello" && g.s == s;

    var g2 := g.Group("world", [Empty]);
    g2.Global([Empty]);
    JoinHelloWorld();
    assert |g2.globalHandlers| == 4 && g2.basePath == "/hello/world" && g2.s == s;
  }

  /** The two routes `performRequestInGroup` registers: "/test" under the group
      "v1" (one global) and under its subgroup "/login/" (three globals). */
  const GroupRoutes: seq<Route> :=
    [Route("/v1/test", [Empty, Reporter]), Route("/v1/login/test", [Empty, Empty, Empty, Reporter])]

  /** Every one of the nine methods passes `Handle`'s checks for "/test" with one
      handler. */
  lemma TestRouteAccepted(httpMethod: string)
    requires httpMethod in AnyMethods
    ensures CheckRoute(httpMethod, "/test", 1) == Ok
  {
    AnyMethodsAreTokens();
    var k :| 0 <= k < |AnyMethods| && AnyMethods[k] == httpMethod;
    assert IsUpperToken(httpMethod);
  }

  /** The groups of `performRequestInGroup`: "v1" under the root with one global,
      and "/login/" under it with two more. */
  method GroupsInTest(s: Server) returns (v1: RouterGroup, login: RouterGroup)
    requires s.group != null && s.group.s == s && s.group.basePath == "/" && s.group.globalHandlers == []
    ensures v1.s == s && v1.basePath == "/v1" && v1.globalHandlers == [Empty]
    ensures login.s == s && login.basePath == "/v1/login/" && login.globalHandlers == [Empty, Empty, Empty]
  {
    v1 := s.group.Group("v1", [Empty]);
    JoinRootV1();
    login := v1.Group("/login/", [Empty, Empty]);
    JoinV1Login();
  }

  /** The registration half of `performRequestInGroup`. */
  method RegisterInGroup(httpMethod: string) returns (s: Server)
    requires httpMethod in AnyMethods
    ensures fresh(s) && s.sem == StaticTree()
    ensures s.trees == map[httpMethod := Router(GroupRoutes)]
    ensures s.Switches() == Flags(true, true, true, true)
  {
    s := new Server(StaticTree());
    var v1, login := GroupsInTest(s);
    TestRouteAccepted(httpMethod);
    var c1 := v1.Handle(httpMethod, "/test", [Reporter]);
    FirstGroupRoute(httpMethod);
    var c2 := login.Handle(httpMethod, "/test", [Reporter]);
    SecondGroupRoute(httpMethod);
  }

  /** "/test" under "v1" is the first of `GroupRoutes`, in a tree of its own. */
  lemma FirstGroupRoute(httpMethod: string)
    ensures AddRoute(map[], httpMethod, JoinPaths("/v1", "/test"), CombineHandlers([Empty], [Reporter]))
         == map[httpMethod := Router([GroupRoutes[0]])]
  {
    JoinV1Test();
    assert CombineHandlers([Empty], [Reporter]) == [Empty, Reporter];
  }

  /** "/test" under "/v1/login/" comes second, in the same tree. */
  lemma SecondGroupRoute(httpMethod: string)
    ensures AddRoute(map[httpMethod := Router([GroupRoutes[0]])], httpMethod, JoinPaths("/v1/login/", "/test"),
                     CombineHandlers([Empty, Empty, Empty], [Reporter]))
         == map[httpMethod := Router(GroupRoutes)]
  {
    JoinLoginTest();
    assert CombineHandlers([Empty, Empty, Empty], [Reporter]) == [Empty, Empty, Empty, Reporter];
    assert [GroupRoutes[0]] + [GroupRoutes[1]] == GroupRoutes;
  }

  /** With the static tree, a request for a registered path runs that route's chain. */
  lemma StaticRouteRuns(httpMethod: string, k: nat, notAllowed: Option<Handler>, notFound: Option<Handler>)
    requires k < |GroupRoutes|
    ensures Decide(Flags(true, true, true, true), map[httpMethod := Router(GroupRoutes)], StaticTree(),
                   notAllowed, notFound, httpMethod, GroupRoutes[k].path) == Ran([], GroupRoutes[k].handlers)
  {
    assert StaticFind(GroupRoutes, GroupRoutes[k].path) == Match(Some(GroupRoutes[k].handlers), [], false);
  }

  /** `performRequestInGroup`, for any of the nine methods: the route under the
      nested group runs four handlers and the reporting one sees index 3; the route
      under the outer group runs two and it sees index 1. */
  method RequestInGroup(httpMethod: string)
    requires httpMethod in AnyMethods
  {
    var s := RegisterInGroup(httpMethod);
    var ctx := new Context();
    StaticRouteRuns(httpMethod, 1, s.methodNotAllowed, s.notFound);
    var o := s.ServeHTTP(ctx, Request(httpMethod, "/v1/login/test", map[], map[], None), map[]);
    assert o == Ran([], [Empty, Empty, Empty, Reporter]);
    assert Span(0, 4) == [0, 1, 2, 3];
    assert ctx.invoked == [0, 1, 2, 3] && ctx.handlers[3] == Reporter;

    StaticRouteRuns(httpMethod, 0, s.methodNotAllowed, s.notFound);
    o := s.ServeHTTP(ctx, Request(httpMethod, "/v1/test", map[], map[], None), map[]);
    assert o == Ran([], [Empty, Reporter]);
    assert Span(0, 2) == [0, 1];
    assert ctx.invoked == [0, 1, 2, 3] + [0, 1] && ctx.handlers[1] == Reporter;
  }
}
