/** The server of gweb.go and the route groups of router_group.go. A `Server`
    holds the switches, the 404 and 405 handlers, one tree per HTTP method and its
    root group; a `RouterGroup` registers routes into its server's trees under a
    base path, prefixing its global handlers. */
module Gweb {
  import opened Values
  import opened Routers
  import opened GoStrings
  import opened Utils
  import opened Registration
  import opened Dispatch
  import opened Contexts
  import GoPath

  class Server {
    var redirectTrailingSlash: bool
    var redirectFixedPath: bool
    var handleOptions: bool
    var handleMethodNotAllowed: bool
    /** The 405 handler; `None` until one is set or the default is installed. */
    var methodNotAllowed: Option<Handler>
    /** The 404 handler; `None` until one is set or the default is installed. */
    var notFound: Option<Handler>
    var trees: map<string, Router>
    /** The embedded root group. */
    var group: RouterGroup?
    /** How the trees behave; the tree implementation is not part of this model. */
    const sem: TreeSemantics

    /** `NewServer`: every switch on, no custom handlers, no trees, and a root
        group at "/" without global handlers. */
    constructor (sem: TreeSemantics)
      ensures redirectTrailingSlash && redirectFixedPath && handleOptions && handleMethodNotAllowed
      ensures methodNotAllowed == None && notFound == None
      ensures trees == map[]
      ensures this.sem == sem
      ensures group != null && fresh(group)
      ensures group.s == this && group.basePath == "/" && group.globalHandlers == []
    {
      redirectTrailingSlash := true;
      redirectFixedPath := true;
      handleOptions := true;
      handleMethodNotAllowed := true;
      methodNotAllowed := None;
      notFound := None;
      trees := map[];
      this.sem := sem;
      new;
      group := new RouterGroup(this, "/", []);
    }

    /** The four switches. */
    function Switches(): Flags
      reads this`redirectTrailingSlash, this`redirectFixedPath, this`handleOptions, this`handleMethodNotAllowed
    {
      Flags(redirectTrailingSlash, redirectFixedPath, handleOptions, handleMethodNotAllowed)
    }

    /** `allowed`: the methods other than OPTIONS that serve `path` (every one for
        "*"), in the trees' unspecified order, followed by "OPTIONS" and joined by
        ", "; "" when there is none. The ghost `allowSlice` is the list joined. */
    method Allowed(path: string, httpMethod: string) returns (allow: string, ghost allowSlice: seq<string>)
      ensures allow == "" <==> AllowedSet(trees, sem, path, httpMethod) == {}
      ensures allow != "" ==> AllowList(allowSlice, AllowedSet(trees, sem, path, httpMethod))
      ensures allow != "" ==> allow == Join(allowSlice, ", ")
    {
      var list: seq<string> := [];
      var rest := trees.Keys;
      while rest != {}
        invariant rest <= trees.Keys
        invariant forall i, j :: 0 <= i < j < |list| ==> list[i] != list[j]
        invariant forall m :: m in list <==> m in AllowedSet(trees, sem, path, httpMethod) && m !in rest
        decreases rest
      {
        var m :| m in rest;
        rest := rest - {m};
        if path == "*" {
          if m != MethodOptions {
            list := list + [m];
          }
        } else if httpMethod != m && m != MethodOptions {
          var found := Find(sem, trees[m], path);
          if found.handlers.Some? {
            list := list + [m];
          }
        }
      }
      allowSlice := list;
      allow := "";
      if |list| > 0 {
        assert list[0] in AllowedSet(trees, sem, path, httpMethod);
        list := list + [MethodOptions];
        assert list[..|list| - 1] == allowSlice;
        allowSlice := list;
        allow := Join(list, ", ");
        JoinEndsWithLast(list, ", ");
      }
    }

    /** `methodNotAllowed`: installs the default 405 reply when no handler is set,
        keeps a set one, and returns the handler to run. */
    method MethodNotAllowedReply() returns (h: Handler)
      modifies this`methodNotAllowed
      ensures h == old(methodNotAllowed).GetOr(ErrorReply(StatusMethodNotAllowed))
      ensures methodNotAllowed == Some(h)
    {
      if methodNotAllowed.None? {
        methodNotAllowed := Some(ErrorReply(StatusMethodNotAllowed));
      }
      h := methodNotAllowed.value;
    }

    /** `notFound`: installs the default 404 reply when no handler is set, keeps a
        set one, and returns the handler to run. */
    method NotFoundReply() returns (h: Handler)
      modifies this`notFound
      ensures h == old(notFound).GetOr(ErrorReply(StatusNotFound))
      ensures notFound == Some(h)
    {
      if notFound.None? {
        notFound := Some(ErrorReply(StatusNotFound));
      }
      h := notFound.value;
    }

    /** `handleRequest`: carries out `Decide` for the context's request. A found
        chain is installed in the context and run from its first handler; a
        redirect rewrites the request's path; the OPTIONS and 405 replies set the
        `Allow` header; the 404 and 405 handlers are installed when missing. */
    method HandleRequest(ctx: Context) returns (o: Outcome, ghost allowSlice: seq<string>)
      requires ctx.curHandlerIndex == -1
      modifies this`methodNotAllowed, this`notFound
      modifies ctx`req, ctx`header, ctx`params, ctx`handlers, ctx`curHandlerIndex, ctx`invoked
      ensures o == Decide(Switches(), trees, sem, old(methodNotAllowed), old(notFound),
                          old(ctx.req.httpMethod), old(ctx.req.path))
      // the chain that runs
      ensures o.Ran? ==> ctx.params == o.params && ctx.handlers == o.handlers
      ensures o.Ran? ==> ctx.invoked == old(ctx.invoked) + Span(0, |o.handlers|)
      ensures o.Ran? ==> ctx.curHandlerIndex >= |o.handlers|
      ensures !o.Ran? ==>
        && ctx.params == old(ctx.params) && ctx.handlers == old(ctx.handlers)
        && ctx.curHandlerIndex == -1 && ctx.invoked == old(ctx.invoked)
      // the rewritten request path
      ensures o.Redirected? ==> ctx.req == old(ctx.req).(path := o.location)
      ensures !o.Redirected? ==> ctx.req == old(ctx.req)
      // the Allow header
      ensures o.AutoOptions? || o.MethodNotAllowed? ==>
        && AllowList(allowSlice, o.allow)
        && ctx.header == old(ctx.header)["Allow" := Join(allowSlice, ", ")]
      ensures !(o.AutoOptions? || o.MethodNotAllowed?) ==> ctx.header == old(ctx.header)
      // the lazily installed handlers
      ensures o.MethodNotAllowed? ==> methodNotAllowed == Some(o.handler) && notFound == old(notFound)
      ensures o.NotFound? ==> notFound == Some(o.handler) && methodNotAllowed == old(methodNotAllowed)
      ensures !o.MethodNotAllowed? && !o.NotFound? ==>
        methodNotAllowed == old(methodNotAllowed) && notFound == old(notFound)
    {
      var httpMethod, path := ctx.req.httpMethod, ctx.req.path;
      allowSlice := [];
      if httpMethod in trees {
        var router := trees[httpMethod];
        var m := Find(sem, router, path);
        if m.handlers.Some? {
          RunChain(ctx, m.params, m.handlers.value);
          return Ran(m.params, m.handlers.value), [];
        }
        var redirect := Redirect(ctx, router, m.tsr, httpMethod, path);
        if redirect.Some? {
          return redirect.value, [];
        }
      }
      o, allowSlice := ReplyUnrouted(ctx, httpMethod, path);
    }

    /** The redirect half of `handleRequest`, after the method's tree missed:
        carries out `Redirection`, rewriting the request path to the target when
        it redirects. */
    method Redirect(ctx: Context, router: Router, tsr: bool, httpMethod: string, path: string)
      returns (r: Option<Outcome>)
      requires tsr == Find(sem, router, path).tsr
      modifies ctx`req
      ensures r == Redirection(Switches(), sem, router, httpMethod, path)
      ensures r.Some? ==> r.value.Redirected? && ctx.req == old(ctx.req).(path := r.value.location)
      ensures r.None? ==> ctx.req == old(ctx.req)
    {
      if httpMethod != MethodConnect && path != "/" {
        var code := StatusMovedPermanently;
        if httpMethod != MethodGet {
          code := StatusTemporaryRedirect;
        }
        if tsr && redirectTrailingSlash {
          var target;
          if |path| > 1 && path[|path| - 1] == '/' {
            target := path[..|path| - 1];
          } else {
            target := path + "/";
          }
          ctx.req := ctx.req.(path := target);
          return Some(Redirected(code, target, TrailingSlash));
        }
        if redirectFixedPath {
          var fix := FindCaseInsensitivePath(sem, router, sem.cleanPath(path), redirectTrailingSlash);
          if fix.found {
            ctx.req := ctx.req.(path := fix.path);
            return Some(Redirected(code, fix.path, FixedPath));
          }
        }
      }
      return None;
    }

    /** The found chain gets the request: the context takes the parameters and the
        handlers, and `Next` runs every handler once, in order. */
    static method RunChain(ctx: Context, params: seq<Param>, handlers: seq<Handler>)
      requires ctx.curHandlerIndex == -1
      modifies ctx`params, ctx`handlers, ctx`curHandlerIndex, ctx`invoked
      ensures ctx.params == params && ctx.handlers == handlers
      ensures ctx.invoked == old(ctx.invoked) + Span(0, |handlers|)
      ensures ctx.curHandlerIndex >= |handlers|
    {
      ctx.params := params;
      ctx.handlers := handlers;
      ctx.Next();
    }

    /** The part of `handleRequest` after routing and redirection failed: for
        OPTIONS the automatic reply, for other methods the 405 reply, each only
        when switched on and some method is allowed, and otherwise the 404 reply.
        The OPTIONS and 405 replies set the `Allow` header. */
    method ReplyUnrouted(ctx: Context, httpMethod: string, path: string) returns (o: Outcome, ghost allowSlice: seq<string>)
      modifies this`methodNotAllowed, this`notFound, ctx`header
      ensures o == Unrouted(Switches(), AllowedSet(trees, sem, path, httpMethod), old(methodNotAllowed), old(notFound), httpMethod)
      ensures o.AutoOptions? || o.MethodNotAllowed? ==>
        && AllowList(allowSlice, o.allow)
        && ctx.header == old(ctx.header)["Allow" := Join(allowSlice, ", ")]
      ensures !(o.AutoOptions? || o.MethodNotAllowed?) ==> ctx.header == old(ctx.header)
      ensures o.MethodNotAllowed? ==> methodNotAllowed == Some(o.handler) && notFound == old(notFound)
      ensures o.NotFound? ==> notFound == Some(o.handler) && methodNotAllowed == old(methodNotAllowed)
      ensures o.AutoOptions? ==> methodNotAllowed == old(methodNotAllowed) && notFound == old(notFound)
    {
      var allow := "";
      allowSlice := [];
      if httpMethod == MethodOptions {
        if handleOptions {
          allow, allowSlice := Allowed(path, httpMethod);
        }
        if allow != "" {
          ctx.header := ctx.header["Allow" := allow];
          o := AutoOptions(AllowedSet(trees, sem, path, httpMethod));
        } else {
          var h := NotFoundReply();
          o := NotFound(h);
        }
      } else {
        if handleMethodNotAllowed {
          allow, allowSlice := Allowed(path, httpMethod);
        }
        if allow != "" {
          ctx.header := ctx.header["Allow" := allow];
          var h := MethodNotAllowedReply();
          o := MethodNotAllowed(AllowedSet(trees, sem, path, httpMethod), h);
        } else {
          var h := NotFoundReply();
          o := NotFound(h);
        }
      }
    }

    /** `ServeHTTP` on a context taken from the pool: the context is reset for the
        request and the request is handled. A found chain runs from its first
        handler to its last, each handler once; the context's user data is kept. */
    method ServeHTTP(ctx: Context, r: Request, respHeader: map<string, string>) returns (o: Outcome)
      modifies this`methodNotAllowed, this`notFound
      modifies ctx`req, ctx`header, ctx`params, ctx`handlers, ctx`curHandlerIndex, ctx`invoked
      ensures o == Decide(Switches(), trees, sem, old(methodNotAllowed), old(notFound), r.httpMethod, r.path)
      ensures o.Ran? ==> ctx.handlers == o.handlers && ctx.params == o.params
      ensures o.Ran? ==> ctx.invoked == old(ctx.invoked) + Span(0, |o.handlers|)
      ensures !o.Ran? ==> ctx.invoked == old(ctx.invoked) && ctx.handlers == [] && ctx.params == []
      ensures ctx.userData == old(ctx.userData)
    {
      ctx.Reset(r, respHeader);
      ghost var allowSlice;
      o, allowSlice := HandleRequest(ctx);
    }
  }

  class RouterGroup {
    const s: Server
    const basePath: string
    var globalHandlers: seq<Handler>

    /** `NewGroup`. */
    constructor (s: Server, basePath: string, handlers: seq<Handler>)
      ensures this.s == s && this.basePath == basePath && globalHandlers == handlers
    {
      this.s := s;
      this.basePath := basePath;
      globalHandlers := handlers;
    }

    /** `Group`: a new group of the same server, under this group's base path
        joined with `relativePath`, whose globals are this group's followed by
        `handlers`. */
    method Group(relativePath: string, handlers: seq<Handler>) returns (g: RouterGroup)
      ensures fresh(g) && g.s == s
      ensures g.basePath == JoinPaths(basePath, relativePath)
      ensures g.globalHandlers == CombineHandlers(globalHandlers, handlers)
    {
      var absolutePath := JoinPaths(basePath, relativePath);
      var combined := CombineHandlers(globalHandlers, handlers);
      g := new RouterGroup(s, absolutePath, combined);
    }

    /** `Global`: appends handlers to the group's globals, in order. */
    method Global(handlers: seq<Handler>)
      modifies this`globalHandlers
      ensures globalHandlers == old(globalHandlers) + handlers
    {
      globalHandlers := globalHandlers + handlers;
    }

    /** `Handle`: checks the route (the first failed check panics and nothing is
        registered), then adds `JoinPaths(basePath, path)` with the group's globals
        in front of `handlers` to the method's tree, creating the tree first if
        there is none. */
    method Handle(httpMethod: string, path: string, handlers: seq<Handler>) returns (c: Check)
      modifies s`trees
      ensures c == CheckRoute(httpMethod, path, |handlers|)
      ensures c.Panic? ==> s.trees == old(s.trees)
      ensures c.Ok? ==>
        s.trees == AddRoute(old(s.trees), httpMethod, JoinPaths(basePath, path), CombineHandlers(globalHandlers, handlers))
    {
      if path == "" {
        return Panic(IndexOutOfRange);
      }
      c := Assert(path[0] == '/', "path must begin with '/' in path '" + path + "'");
      if c.Panic? { return; }
      c := Assert(httpMethod != "", "HTTP method can not be empty in path '" + path + "'");
      if c.Panic? { return; }
      c := Assert(|handlers| > 0, "there must be at least one handler");
      if c.Panic? { return; }
      if !IsUpperToken(httpMethod) {
        return Panic("http method '" + httpMethod + "' is not valid");
      }
      var router;
      if httpMethod in s.trees {
        router := s.trees[httpMethod];
      } else {
        router := NewRouter();
        s.trees := s.trees[httpMethod := router];
      }
      var combined := CombineHandlers(globalHandlers, handlers);
      var absolutePath := JoinPaths(basePath, path);
      s.trees := s.trees[httpMethod := Add(router, absolutePath, combined)];
    }

    /** `HandleMethods`: `Handle` for each method, trimmed, in list order, up to
        the first panic. */
    method HandleMethods(methods: seq<string>, path: string, handlers: seq<Handler>) returns (c: Check)
      modifies s`trees
      ensures (s.trees, c) == HandleAll(old(s.trees), basePath, globalHandlers, methods, path, handlers)
    {
      c := Ok;
      var i := 0;
      while i < |methods|
        invariant 0 <= i <= |methods| && c == Ok
        invariant HandleAll(old(s.trees), basePath, globalHandlers, methods, path, handlers) ==
          HandleAll(s.trees, basePath, globalHandlers, methods[i..], path, handlers)
      {
        HandleAllStep(s.trees, basePath, globalHandlers, methods, i, path, handlers);
        c := Handle(TrimSpace(methods[i]), path, handlers);
        if c.Panic? {
          return;
        }
        i := i + 1;
      }
      assert methods[i..] == [];
    }

    /** `Any`: `HandleMethods` for the nine methods. */
    method Any(path: string, handlers: seq<Handler>) returns (c: Check)
      modifies s`trees
      ensures (s.trees, c) == HandleAll(old(s.trees), basePath, globalHandlers, AnyMethods, path, handlers)
    {
      c := HandleMethods(AnyMethods, path, handlers);
    }

    /** `StaticFile`: a path with a parameter is refused; otherwise GET and HEAD
        get the path with `serveFile` (the handler serving the file). */
    method StaticFile(path: string, serveFile: Handler) returns (c: Check)
      modifies s`trees
      ensures StaticPathCheck(path).Panic? ==> c == StaticPathCheck(path) && s.trees == old(s.trees)
      ensures StaticPathCheck(path).Ok? ==>
        (s.trees, c) == HandleAll(old(s.trees), basePath, globalHandlers, StaticMethods, path, [serveFile])
    {
      c := StaticPathCheck(path);
      if c.Panic? {
        return;
      }
      c := HandleMethods([MethodGet, MethodHead], path, [serveFile]);
    }

    /** `StaticFS`: a relative path with a parameter is refused; otherwise GET and
        HEAD get the relative path joined with the catch-all segment `filepath`,
        with `serveFiles` (the handler serving the file system). */
    method StaticFS(relativePath: string, serveFiles: Handler) returns (c: Check)
      modifies s`trees
      ensures StaticPathCheck(relativePath).Panic? ==> c == StaticPathCheck(relativePath) && s.trees == old(s.trees)
      ensures StaticPathCheck(relativePath).Ok? ==>
        (s.trees, c) == HandleAll(old(s.trees), basePath, globalHandlers, StaticMethods,
                                  GoPath.Join(relativePath, "/*filepath"), [serveFiles])
    {
      c := StaticPathCheck(relativePath);
      if c.Panic? {
        return;
      }
      var urlPath := GoPath.Join(relativePath, "/*filepath");
      c := HandleMethods([MethodGet, MethodHead], urlPath, [serveFiles]);
    }
  }
}
