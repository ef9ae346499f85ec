/** The value-level rules of route registration in router_group.go: how handler
    chains combine, when `Handle` refuses a route, how a route enters the
    per-method trees, and the method lists `Any`, `StaticFile` and `StaticFS` use. */
module Registration {
  import opened Values
  import opened Routers
  import opened GoStrings
  import opened Utils

  /** `Assert`: passes when the guard holds, panics with the message otherwise. */
  function Assert(guard: bool, errMsg: string): (c: Check)
    ensures c.Ok? <==> guard
    ensures c.Panic? ==> c.message == errMsg
  {
    if guard then Ok else Panic(errMsg)
  }

  /** `combineHandlers`: the group's global handlers followed by the given ones. */
  function CombineHandlers(globals: seq<Handler>, handlers: seq<Handler>): (r: seq<Handler>)
    ensures |r| == |globals| + |handlers|
    ensures forall i :: 0 <= i < |globals| ==> r[i] == globals[i]
    ensures forall i :: 0 <= i < |handlers| ==> r[|globals| + i] == handlers[i]
    ensures globals == [] ==> r == handlers
  {
    if |globals| == 0 then handlers else globals + handlers
  }

  const IndexOutOfRange := "runtime error: index out of range [0] with length 0"

  /** The checks at the top of `Handle`, in their order. Reading `path[0]` of an
      empty path is itself a panic. */
  function CheckRoute(httpMethod: string, path: string, handlerCount: nat): (c: Check)
    ensures c.Ok? <==> path != "" && path[0] == '/' && IsUpperToken(httpMethod) && handlerCount > 0
    ensures path == "" ==> c == Panic(IndexOutOfRange)
  {
    if path == "" then Panic(IndexOutOfRange)
    else
      var slash := Assert(path[0] == '/', "path must begin with '/' in path '" + path + "'");
      var named := Assert(httpMethod != "", "HTTP method can not be empty in path '" + path + "'");
      var some := Assert(handlerCount > 0, "there must be at least one handler");
      if slash.Panic? then slash
      else if named.Panic? then named
      else if some.Panic? then some
      else if !IsUpperToken(httpMethod) then Panic("http method '" + httpMethod + "' is not valid")
      else Ok
  }

  /** The message of each refusal: the checks run in their order, and the first
      that fails names the problem. */
  lemma CheckRouteMessages(httpMethod: string, path: string, handlerCount: nat)
    ensures path != "" && path[0] != '/' ==>
      CheckRoute(httpMethod, path, handlerCount) == Panic("path must begin with '/' in path '" + path + "'")
    ensures path != "" && path[0] == '/' && httpMethod == "" ==>
      CheckRoute(httpMethod, path, handlerCount) == Panic("HTTP method can not be empty in path '" + path + "'")
    ensures path != "" && path[0] == '/' && httpMethod != "" && handlerCount == 0 ==>
      CheckRoute(httpMethod, path, handlerCount) == Panic("there must be at least one handler")
    ensures path != "" && path[0] == '/' && httpMethod != "" && handlerCount > 0 && !IsUpperToken(httpMethod) ==>
      CheckRoute(httpMethod, path, handlerCount) == Panic("http method '" + httpMethod + "' is not valid")
  {
  }

  /** The tree for `httpMethod` (created empty when there is none yet) gets the
      route; the other methods' trees stay as they were. */
  function AddRoute(trees: map<string, Router>, httpMethod: string, absolutePath: string, handlers: seq<Handler>)
    : (r: map<string, Router>)
    ensures r.Keys == trees.Keys + {httpMethod}
    ensures httpMethod in trees ==> r[httpMethod].routes == trees[httpMethod].routes + [Route(absolutePath, handlers)]
    ensures httpMethod !in trees ==> r[httpMethod].routes == [Route(absolutePath, handlers)]
    ensures forall m :: m in trees && m != httpMethod ==> r[m] == trees[m]
  {
    var router := if httpMethod in trees then trees[httpMethod] else NewRouter();
    trees[httpMethod := Add(router, absolutePath, handlers)]
  }

  /** `HandleMethods` on the trees: each method, trimmed, is registered in list
      order, and the first refused one stops the loop with its panic, leaving the
      earlier registrations in place. */
  function HandleAll(trees: map<string, Router>, basePath: string, globals: seq<Handler>,
                     methods: seq<string>, path: string, handlers: seq<Handler>): (map<string, Router>, Check)
    decreases |methods|
  {
    if |methods| == 0 then (trees, Ok)
    else
      var m := TrimSpace(methods[0]);
      var c := CheckRoute(m, path, |handlers|);
      if c.Panic? then (trees, c)
      else HandleAll(AddRoute(trees, m, JoinPaths(basePath, path), CombineHandlers(globals, handlers)),
                     basePath, globals, methods[1..], path, handlers)
  }

  /** One turn of `HandleMethods`' loop: the `i`-th method is checked and, when
      it passes, registered before the rest of the list is. */
  lemma HandleAllStep(trees: map<string, Router>, basePath: string, globals: seq<Handler>,
                      methods: seq<string>, i: nat, path: string, handlers: seq<Handler>)
    requires i < |methods|
    ensures HandleAll(trees, basePath, globals, methods[i..], path, handlers) ==
      if CheckRoute(TrimSpace(methods[i]), path, |handlers|).Panic? then
        (trees, CheckRoute(TrimSpace(methods[i]), path, |handlers|))
      else
        HandleAll(AddRoute(trees, TrimSpace(methods[i]), JoinPaths(basePath, path), CombineHandlers(globals, handlers)),
                  basePath, globals, methods[i + 1..], path, handlers)
  {
    assert methods[i..][0] == methods[i] && methods[i..][1..] == methods[i + 1..];
  }

  /** The set of trimmed method names of a list. */
  function TrimmedSet(methods: seq<string>): set<string> {
    set i | 0 <= i < |methods| :: TrimSpace(methods[i])
  }

  /** `HandleMethods` succeeds exactly when every trimmed method passes the checks. */
  lemma {:induction false} HandleAllOk(trees: map<string, Router>, basePath: string, globals: seq<Handler>,
                                       methods: seq<string>, path: string, handlers: seq<Handler>)
    ensures HandleAll(trees, basePath, globals, methods, path, handlers).1.Ok? <==>
      forall i :: 0 <= i < |methods| ==> CheckRoute(TrimSpace(methods[i]), path, |handlers|).Ok?
    decreases |methods|
  {
    if |methods| > 0 {
      var m := TrimSpace(methods[0]);
      if CheckRoute(m, path, |handlers|).Ok? {
        var rest := methods[1..];
        HandleAllOk(AddRoute(trees, m, JoinPaths(basePath, path), CombineHandlers(globals, handlers)),
                    basePath, globals, rest, path, handlers);
        forall i | 1 <= i < |methods| ensures methods[i] == rest[i - 1] {
        }
      }
    }
  }

  /** A successful `HandleMethods` gives every listed method a tree and adds no
      other method. */
  lemma {:induction false} HandleAllKeys(trees: map<string, Router>, basePath: string, globals: seq<Handler>,
                                         methods: seq<string>, path: string, handlers: seq<Handler>)
    requires HandleAll(trees, basePath, globals, methods, path, handlers).1.Ok?
    ensures HandleAll(trees, basePath, globals, methods, path, handlers).0.Keys == trees.Keys + TrimmedSet(methods)
    decreases |methods|
  {
    if |methods| > 0 {
      var m := TrimSpace(methods[0]);
      HandleAllKeys(AddRoute(trees, m, JoinPaths(basePath, path), CombineHandlers(globals, handlers)),
                    basePath, globals, methods[1..], path, handlers);
      TrimmedSetTail(methods);
    }
  }

  /** Dropping the first method of a list leaves a subset of its trimmed names. */
  lemma TrimmedSetTail(methods: seq<string>)
    requires |methods| > 0
    ensures TrimmedSet(methods) == {TrimSpace(methods[0])} + TrimmedSet(methods[1..])
  {
    forall x | x in TrimmedSet(methods) ensures x in {TrimSpace(methods[0])} + TrimmedSet(methods[1..]) {
      var i :| 0 <= i < |methods| && x == TrimSpace(methods[i]);
      if i > 0 { assert methods[i] == methods[1..][i - 1]; }
    }
    forall x | x in TrimmedSet(methods[1..]) ensures x in TrimmedSet(methods) {
      var i :| 0 <= i < |methods[1..]| && x == TrimSpace(methods[1..][i]);
      assert methods[1..][i] == methods[i + 1];
    }
  }

  /** Whatever happens, only listed methods gain a tree, and a method not in the
      list keeps its tree. */
  lemma {:induction false} HandleAllFrame(trees: map<string, Router>, basePath: string, globals: seq<Handler>,
                                          methods: seq<string>, path: string, handlers: seq<Handler>)
    ensures HandleAll(trees, basePath, globals, methods, path, handlers).0.Keys <= trees.Keys + TrimmedSet(methods)
    ensures forall other :: other in trees && other !in TrimmedSet(methods) ==>
      other in HandleAll(trees, basePath, globals, methods, path, handlers).0 &&
      HandleAll(trees, basePath, globals, methods, path, handlers).0[other] == trees[other]
    decreases |methods|
  {
    if |methods| > 0 {
      var m := TrimSpace(methods[0]);
      TrimmedSetTail(methods);
      if CheckRoute(m, path, |handlers|).Ok? {
        HandleAllFrame(AddRoute(trees, m, JoinPaths(basePath, path), CombineHandlers(globals, handlers)),
                       basePath, globals, methods[1..], path, handlers);
      }
    }
  }

  /** Every tree of `before` is still in `after`, holding the same routes first. */
  ghost predicate Grown(before: map<string, Router>, after: map<string, Router>) {
    forall m :: m in before ==> m in after && before[m].routes <= after[m].routes
  }

  /** `HandleMethods` only ever appends routes: whatever happens, every tree that
      existed keeps its routes, in order, at the front. */
  lemma {:induction false} HandleAllGrows(trees: map<string, Router>, basePath: string, globals: seq<Handler>,
                                          methods: seq<string>, path: string, handlers: seq<Handler>)
    ensures Grown(trees, HandleAll(trees, basePath, globals, methods, path, handlers).0)
    decreases |methods|
  {
    if |methods| > 0 {
      var m := TrimSpace(methods[0]);
      if CheckRoute(m, path, |handlers|).Ok? {
        var next := AddRoute(trees, m, JoinPaths(basePath, path), CombineHandlers(globals, handlers));
        HandleAllGrows(next, basePath, globals, methods[1..], path, handlers);
        var r := HandleAll(next, basePath, globals, methods[1..], path, handlers).0;
        forall x | x in trees ensures x in r && trees[x].routes <= r[x].routes {
          assert trees[x].routes <= next[x].routes;
        }
      }
    }
  }

  /** A successful `HandleMethods` accepted its first method and registered the
      rest on the trees that already hold that method's route. */
  lemma HandleAllOkStep(trees: map<string, Router>, basePath: string, globals: seq<Handler>,
                        methods: seq<string>, path: string, handlers: seq<Handler>)
    requires |methods| > 0
    requires HandleAll(trees, basePath, globals, methods, path, handlers).1.Ok?
    ensures CheckRoute(TrimSpace(methods[0]), path, |handlers|).Ok?
    ensures HandleAll(trees, basePath, globals, methods, path, handlers) ==
      HandleAll(AddRoute(trees, TrimSpace(methods[0]), JoinPaths(basePath, path), CombineHandlers(globals, handlers)),
                basePath, globals, methods[1..], path, handlers)
  {
  }

  /** After a successful `HandleMethods`, the first listed method's tree holds
      the route. */
  lemma HandleAllFirstRoute(trees: map<string, Router>, basePath: string, globals: seq<Handler>,
                            methods: seq<string>, path: string, handlers: seq<Handler>)
    requires |methods| > 0
    requires HandleAll(trees, basePath, globals, methods, path, handlers).1.Ok?
    ensures TrimSpace(methods[0]) in HandleAll(trees, basePath, globals, methods, path, handlers).0
    ensures Route(JoinPaths(basePath, path), CombineHandlers(globals, handlers))
      in HandleAll(trees, basePath, globals, methods, path, handlers).0[TrimSpace(methods[0])].routes
  {
    var m := TrimSpace(methods[0]);
    var route := Route(JoinPaths(basePath, path), CombineHandlers(globals, handlers));
    var next := AddRoute(trees, m, route.path, route.handlers);
    assert route == next[m].routes[|next[m].routes| - 1];
    HandleAllGrows(next, basePath, globals, methods[1..], path, handlers);
  }

  /** After a successful `HandleMethods`, the tree of every listed method, trimmed,
      holds the route: the joined path with the combined chain. */
  lemma {:induction false} HandleAllRoutes(trees: map<string, Router>, basePath: string, globals: seq<Handler>,
                                           methods: seq<string>, path: string, handlers: seq<Handler>, i: nat)
    requires i < |methods|
    requires HandleAll(trees, basePath, globals, methods, path, handlers).1.Ok?
    ensures TrimSpace(methods[i]) in HandleAll(trees, basePath, globals, methods, path, handlers).0
    ensures Route(JoinPaths(basePath, path), CombineHandlers(globals, handlers))
      in HandleAll(trees, basePath, globals, methods, path, handlers).0[TrimSpace(methods[i])].routes
    decreases i
  {
    if i == 0 {
      HandleAllFirstRoute(trees, basePath, globals, methods, path, handlers);
    } else {
      var next := AddRoute(trees, TrimSpace(methods[0]), JoinPaths(basePath, path), CombineHandlers(globals, handlers));
      HandleAllOkStep(trees, basePath, globals, methods, path, handlers);
      HandleAllRoutes(next, basePath, globals, methods[1..], path, handlers, i - 1);
      assert methods[1..][i - 1] == methods[i];
    }
  }

  /** A list of upper-case tokens is unchanged by trimming. */
  lemma TrimmedTokens(methods: seq<string>)
    requires forall i :: 0 <= i < |methods| ==> IsUpperToken(methods[i])
    ensures TrimmedSet(methods) == set m | m in methods
  {
    forall i | 0 <= i < |methods| ensures TrimSpace(methods[i]) == methods[i] {
      UpperTokenTrimmed(methods[i]);
    }
  }

  /** Registering a list of upper-case tokens under a valid path with at least one
      handler succeeds, gives each listed method a tree and puts the route in it. */
  lemma TokensRegister(trees: map<string, Router>, basePath: string, globals: seq<Handler>,
                       methods: seq<string>, path: string, handlers: seq<Handler>)
    requires forall i :: 0 <= i < |methods| ==> IsUpperToken(methods[i])
    requires path != "" && path[0] == '/' && |handlers| > 0
    ensures HandleAll(trees, basePath, globals, methods, path, handlers).1.Ok?
    ensures HandleAll(trees, basePath, globals, methods, path, handlers).0.Keys == trees.Keys + set m | m in methods
    ensures forall i :: 0 <= i < |methods| ==>
      Route(JoinPaths(basePath, path), CombineHandlers(globals, handlers))
        in HandleAll(trees, basePath, globals, methods, path, handlers).0[methods[i]].routes
  {
    forall i | 0 <= i < |methods| ensures CheckRoute(TrimSpace(methods[i]), path, |handlers|).Ok? {
      UpperTokenTrimmed(methods[i]);
    }
    HandleAllOk(trees, basePath, globals, methods, path, handlers);
    HandleAllKeys(trees, basePath, globals, methods, path, handlers);
    TrimmedTokens(methods);
    forall i | 0 <= i < |methods|
      ensures Route(JoinPaths(basePath, path), CombineHandlers(globals, handlers))
        in HandleAll(trees, basePath, globals, methods, path, handlers).0[methods[i]].routes
    {
      UpperTokenTrimmed(methods[i]);
      HandleAllRoutes(trees, basePath, globals, methods, path, handlers, i);
    }
  }

  /** The nine methods `Any` registers. */
  const AnyMethods: seq<string> :=
    [MethodGet, MethodPost, MethodHead, MethodOptions, MethodPut, MethodDelete, MethodTrace, MethodConnect, MethodPatch]

  lemma AnyMethodsAreTokens()
    ensures forall i :: 0 <= i < |AnyMethods| ==> IsUpperToken(AnyMethods[i])
    ensures (set m | m in AnyMethods) == {"GET", "POST", "HEAD", "OPTIONS", "PUT", "DELETE", "TRACE", "CONNECT", "PATCH"}
  {
    forall i | 0 <= i < |AnyMethods| ensures IsUpperToken(AnyMethods[i]) {
      var m := AnyMethods[i];
      assert m in {"GET", "POST", "HEAD", "OPTIONS", "PUT", "DELETE", "TRACE", "CONNECT", "PATCH"};
      assert forall k :: 0 <= k < |m| ==> 'A' <= m[k] <= 'Z';
    }
  }

  /** `Any` with a valid path and at least one handler succeeds, gives exactly the
      nine methods a tree each, and puts the route in each of the nine trees. */
  lemma AnyRegistersNine(trees: map<string, Router>, basePath: string, globals: seq<Handler>,
                         path: string, handlers: seq<Handler>)
    requires path != "" && path[0] == '/' && |handlers| > 0
    ensures HandleAll(trees, basePath, globals, AnyMethods, path, handlers).1.Ok?
    ensures HandleAll(trees, basePath, globals, AnyMethods, path, handlers).0.Keys ==
      trees.Keys + {"GET", "POST", "HEAD", "OPTIONS", "PUT", "DELETE", "TRACE", "CONNECT", "PATCH"}
    ensures forall i :: 0 <= i < |AnyMethods| ==>
      Route(JoinPaths(basePath, path), CombineHandlers(globals, handlers))
        in HandleAll(trees, basePath, globals, AnyMethods, path, handlers).0[AnyMethods[i]].routes
  {
    AnyMethodsAreTokens();
    TokensRegister(trees, basePath, globals, AnyMethods, path, handlers);
  }

  /** The methods `StaticFile` and `StaticFS` register. */
  const StaticMethods: seq<string> := [MethodGet, MethodHead]

  /** `StaticFile` and `StaticFS` refuse a path that contains ':' or '*'. */
  function StaticPathCheck(path: string): (c: Check)
    ensures c.Ok? <==> !ContainsAny(path, ":*")
    ensures c.Panic? ==> c.message == "URL parameters can not be used when serving a static file"
  {
    if ContainsAny(path, ":*") then Panic("URL parameters can not be used when serving a static file") else Ok
  }

  /** Static registrations touch the GET and HEAD trees only. */
  lemma StaticTouchesGetAndHead(trees: map<string, Router>, basePath: string, globals: seq<Handler>,
                                path: string, handlers: seq<Handler>)
    ensures HandleAll(trees, basePath, globals, StaticMethods, path, handlers).0.Keys <= trees.Keys + {"GET", "HEAD"}
    ensures forall m :: m in trees && m != "GET" && m != "HEAD" ==>
      m in HandleAll(trees, basePath, globals, StaticMethods, path, handlers).0 &&
      HandleAll(trees, basePath, globals, StaticMethods, path, handlers).0[m] == trees[m]
  {
    assert IsUpperToken("GET") && IsUpperToken("HEAD");
    TrimmedTokens(StaticMethods);
    assert TrimmedSet(StaticMethods) == {"GET", "HEAD"};
    HandleAllFrame(trees, basePath, globals, StaticMethods, path, handlers);
  }
}
