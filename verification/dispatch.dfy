/** The decision `handleRequest` in gweb.go makes for one request, as a function
    of the server's settings, its per-method trees, the request's method and path,
    and the behaviour of the trees. The server's imperative `HandleRequest` is
    proved to carry out exactly this decision. */
module Dispatch {
  import opened Values
  import opened Routers
  import opened GoStrings

  /** The four switches of `Server`. */
  datatype Flags = Flags(
    redirectTrailingSlash: bool,
    redirectFixedPath: bool,
    handleOptions: bool,
    handleMethodNotAllowed: bool)

  datatype RedirectKind = TrailingSlash | FixedPath

  /** What happens to a request. */
  datatype Outcome =
    | Ran(params: seq<Param>, handlers: seq<Handler>)             // the matched chain runs
    | Redirected(code: nat, location: string, kind: RedirectKind) // 301 or 307 to a new path
    | AutoOptions(allow: set<string>)                             // `Allow` is set, nothing else
    | MethodNotAllowed(allow: set<string>, handler: Handler)      // `Allow` is set, the 405 handler runs
    | NotFound(handler: Handler)                                  // the 404 handler runs

  /** 301 keeps a GET a GET; every other method gets 307 so that it is repeated as is. */
  function RedirectCode(httpMethod: string): (code: nat)
    ensures code == StatusMovedPermanently <==> httpMethod == MethodGet
    ensures code == StatusMovedPermanently || code == StatusTemporaryRedirect
  {
    if httpMethod != MethodGet then StatusTemporaryRedirect else StatusMovedPermanently
  }

  /** The trailing-slash redirect target: one trailing '/' removed from a path
      longer than "/" that ends in '/', one '/' appended to any other path. */
  function TrailingSlashTarget(path: string): (target: string)
    ensures |path| > 1 && path[|path| - 1] == '/' ==> target + "/" == path
    ensures !(|path| > 1 && path[|path| - 1] == '/') ==> target == path + "/"
  {
    if |path| > 1 && path[|path| - 1] == '/' then path[..|path| - 1] else path + "/"
  }

  /** Redirecting twice brings a non-empty path that does not end in "//" back
      to itself. */
  lemma TrailingSlashTargetInvolutive(path: string)
    requires path != ""
    requires !(|path| >= 2 && path[|path| - 1] == '/' && path[|path| - 2] == '/')
    ensures TrailingSlashTarget(TrailingSlashTarget(path)) == path
  {
    var t := TrailingSlashTarget(path);
    if |path| > 1 && path[|path| - 1] == '/' {
      assert t + "/" == path;
      assert t == path[..|path| - 1];
      assert |t| == 1 || t[|t| - 1] != '/';
    } else {
      assert |t| > 1 && t[|t| - 1] == '/';
      assert t[..|t| - 1] == path;
    }
  }

  /** The methods `allowed` lists before its closing "OPTIONS": for "*" every
      registered method but OPTIONS; for a path, every registered method other
      than the requested one and OPTIONS whose tree finds a chain for the path. */
  function AllowedSet(trees: map<string, Router>, sem: TreeSemantics, path: string, httpMethod: string): set<string> {
    set m | m in trees && m != MethodOptions &&
            (path == "*" || (m != httpMethod && Find(sem, trees[m], path).handlers.Some?))
  }

  /** For "*" the allowed methods are the registered ones but OPTIONS; for a path,
      the registered ones other than the requested method and OPTIONS whose tree
      finds a chain. */
  lemma AllowedSetMembers(trees: map<string, Router>, sem: TreeSemantics, path: string, httpMethod: string)
    ensures path == "*" ==> AllowedSet(trees, sem, path, httpMethod) == trees.Keys - {MethodOptions}
    ensures path != "*" ==> forall m :: m in AllowedSet(trees, sem, path, httpMethod) <==>
      m in trees && m != httpMethod && m != MethodOptions && Find(sem, trees[m], path).handlers.Some?
  {
  }

  /** `allowSlice` as `allowed` builds it: the allowed methods, each once, in some
      order, then "OPTIONS". */
  ghost predicate AllowList(list: seq<string>, allow: set<string>) {
    && |list| > 0
    && list[|list| - 1] == MethodOptions
    && (forall i, j :: 0 <= i < j < |list| - 1 ==> list[i] != list[j])
    && (forall m :: m in list[..|list| - 1] <==> m in allow)
  }

  /** `handleRequest`'s decision. */
  function Decide(flags: Flags, trees: map<string, Router>, sem: TreeSemantics,
                  notAllowed: Option<Handler>, notFound: Option<Handler>,
                  httpMethod: string, path: string): Outcome
  {
    var unrouted := Unrouted(flags, AllowedSet(trees, sem, path, httpMethod), notAllowed, notFound, httpMethod);
    if httpMethod !in trees then unrouted
    else
      var m := Find(sem, trees[httpMethod], path);
      if m.handlers.Some? then Ran(m.params, m.handlers.value)
      else Redirection(flags, sem, trees[httpMethod], httpMethod, path).GetOr(unrouted)
  }

  /** The redirect `handleRequest` answers a miss of the method's tree with, if
      any: none for CONNECT or "/", the trailing-slash redirect when the tree
      reports `tsr` and that switch is on, else the fixed-path redirect when that
      switch is on and the case-insensitive lookup of the cleaned path succeeds. */
  function Redirection(flags: Flags, sem: TreeSemantics, router: Router, httpMethod: string, path: string)
    : Option<Outcome>
  {
    if httpMethod == MethodConnect || path == "/" then None
    else if Find(sem, router, path).tsr && flags.redirectTrailingSlash then
      Some(Redirected(RedirectCode(httpMethod), TrailingSlashTarget(path), TrailingSlash))
    else
      var fix := FindCaseInsensitivePath(sem, router, sem.cleanPath(path), flags.redirectTrailingSlash);
      if flags.redirectFixedPath && fix.found then Some(Redirected(RedirectCode(httpMethod), fix.path, FixedPath))
      else None
  }

  /** The second half of `handleRequest`'s decision, for a request that neither
      ran nor was redirected, given the methods `allowed` lists: the automatic
      OPTIONS reply, the 405 reply, or 404. */
  function Unrouted(flags: Flags, allow: set<string>, notAllowed: Option<Handler>, notFound: Option<Handler>,
                    httpMethod: string): Outcome
  {
    if httpMethod == MethodOptions then
      if flags.handleOptions && allow != {} then AutoOptions(allow)
      else NotFound(notFound.GetOr(ErrorReply(StatusNotFound)))
    else if flags.handleMethodNotAllowed && allow != {} then
      MethodNotAllowed(allow, notAllowed.GetOr(ErrorReply(StatusMethodNotAllowed)))
    else NotFound(notFound.GetOr(ErrorReply(StatusNotFound)))
  }

  /** The request's tree finds a chain for its path. */
  ghost predicate Hit(trees: map<string, Router>, sem: TreeSemantics, httpMethod: string, path: string) {
    httpMethod in trees && Find(sem, trees[httpMethod], path).handlers.Some?
  }

  /** A redirect may be attempted: the method has a tree that missed, and it is
      not a CONNECT request or a request for "/". */
  ghost predicate MayRedirect(trees: map<string, Router>, sem: TreeSemantics, httpMethod: string, path: string) {
    httpMethod in trees && !Hit(trees, sem, httpMethod, path) && httpMethod != MethodConnect && path != "/"
  }

  /** A found chain always runs, with exactly the parameters and handlers the tree
      returned, and only a found chain runs. */
  lemma DecideRunsFoundChain(flags: Flags, trees: map<string, Router>, sem: TreeSemantics,
                             notAllowed: Option<Handler>, notFound: Option<Handler>, httpMethod: string, path: string)
    ensures Decide(flags, trees, sem, notAllowed, notFound, httpMethod, path).Ran? <==> Hit(trees, sem, httpMethod, path)
    ensures Hit(trees, sem, httpMethod, path) ==>
      Decide(flags, trees, sem, notAllowed, notFound, httpMethod, path) ==
      Ran(Find(sem, trees[httpMethod], path).params, Find(sem, trees[httpMethod], path).handlers.value)
  {
  }

  /** Every redirect answers a miss of an existing tree, never for CONNECT or "/",
      with 301 for GET and 307 otherwise. */
  lemma DecideRedirectCode(flags: Flags, trees: map<string, Router>, sem: TreeSemantics,
                           notAllowed: Option<Handler>, notFound: Option<Handler>, httpMethod: string, path: string)
    requires Decide(flags, trees, sem, notAllowed, notFound, httpMethod, path).Redirected?
    ensures MayRedirect(trees, sem, httpMethod, path)
    ensures httpMethod != MethodConnect && path != "/"
    ensures Decide(flags, trees, sem, notAllowed, notFound, httpMethod, path).code ==
      if httpMethod == MethodGet then 301 else 307
  {
  }

  /** The trailing-slash redirect fires exactly when it may redirect, the tree
      reports `tsr` and the switch is on; it then goes to the path with one '/'
      removed or added. */
  lemma DecideTrailingSlash(flags: Flags, trees: map<string, Router>, sem: TreeSemantics,
                            notAllowed: Option<Handler>, notFound: Option<Handler>, httpMethod: string, path: string)
    ensures (var o := Decide(flags, trees, sem, notAllowed, notFound, httpMethod, path);
             o.Redirected? && o.kind == TrailingSlash) <==>
      MayRedirect(trees, sem, httpMethod, path) && Find(sem, trees[httpMethod], path).tsr && flags.redirectTrailingSlash
    ensures MayRedirect(trees, sem, httpMethod, path) && Find(sem, trees[httpMethod], path).tsr && flags.redirectTrailingSlash ==>
      Decide(flags, trees, sem, notAllowed, notFound, httpMethod, path) ==
      Redirected(RedirectCode(httpMethod), TrailingSlashTarget(path), TrailingSlash)
  {
  }

  /** The fixed-path redirect fires exactly when it may redirect, the trailing-
      slash redirect did not fire, the switch is on and the case-insensitive
      lookup of the cleaned path finds a route; it then goes to the path found. */
  lemma DecideFixedPath(flags: Flags, trees: map<string, Router>, sem: TreeSemantics,
                        notAllowed: Option<Handler>, notFound: Option<Handler>, httpMethod: string, path: string)
    ensures (var o := Decide(flags, trees, sem, notAllowed, notFound, httpMethod, path);
             o.Redirected? && o.kind == FixedPath) <==>
      && MayRedirect(trees, sem, httpMethod, path)
      && !(Find(sem, trees[httpMethod], path).tsr && flags.redirectTrailingSlash)
      && flags.redirectFixedPath
      && FindCaseInsensitivePath(sem, trees[httpMethod], sem.cleanPath(path), flags.redirectTrailingSlash).found
    ensures (var o := Decide(flags, trees, sem, notAllowed, notFound, httpMethod, path);
             o.Redirected? && o.kind == FixedPath ==>
             o.location == FindCaseInsensitivePath(sem, trees[httpMethod], sem.cleanPath(path), flags.redirectTrailingSlash).path)
  {
  }

  /** Neither a run nor a redirect: the request falls through to the OPTIONS,
      405 and 404 replies. */
  ghost predicate FallsThrough(flags: Flags, trees: map<string, Router>, sem: TreeSemantics, httpMethod: string, path: string) {
    && !Hit(trees, sem, httpMethod, path)
    && !(MayRedirect(trees, sem, httpMethod, path) && Find(sem, trees[httpMethod], path).tsr && flags.redirectTrailingSlash)
    && !(MayRedirect(trees, sem, httpMethod, path) && flags.redirectFixedPath &&
         FindCaseInsensitivePath(sem, trees[httpMethod], sem.cleanPath(path), flags.redirectTrailingSlash).found)
  }

  /** An OPTIONS request is never answered 405; it gets the automatic reply exactly
      when that is switched on and some other method is allowed, and 404 otherwise. */
  lemma DecideOptions(flags: Flags, trees: map<string, Router>, sem: TreeSemantics,
                      notAllowed: Option<Handler>, notFound: Option<Handler>, path: string)
    requires FallsThrough(flags, trees, sem, MethodOptions, path)
    ensures !Decide(flags, trees, sem, notAllowed, notFound, MethodOptions, path).MethodNotAllowed?
    ensures flags.handleOptions && AllowedSet(trees, sem, path, MethodOptions) != {} ==>
      Decide(flags, trees, sem, notAllowed, notFound, MethodOptions, path) ==
      AutoOptions(AllowedSet(trees, sem, path, MethodOptions))
    ensures !(flags.handleOptions && AllowedSet(trees, sem, path, MethodOptions) != {}) ==>
      Decide(flags, trees, sem, notAllowed, notFound, MethodOptions, path) ==
      NotFound(notFound.GetOr(ErrorReply(StatusNotFound)))
  {
  }

  /** Any other method that falls through is answered 405, with the configured or
      the default handler, exactly when that is switched on and some other method
      is allowed; otherwise the 404 handler runs. */
  lemma DecideMethodNotAllowed(flags: Flags, trees: map<string, Router>, sem: TreeSemantics,
                               notAllowed: Option<Handler>, notFound: Option<Handler>, httpMethod: string, path: string)
    requires httpMethod != MethodOptions && FallsThrough(flags, trees, sem, httpMethod, path)
    ensures !Decide(flags, trees, sem, notAllowed, notFound, httpMethod, path).AutoOptions?
    ensures flags.handleMethodNotAllowed && AllowedSet(trees, sem, path, httpMethod) != {} ==>
      Decide(flags, trees, sem, notAllowed, notFound, httpMethod, path) ==
      MethodNotAllowed(AllowedSet(trees, sem, path, httpMethod), notAllowed.GetOr(ErrorReply(StatusMethodNotAllowed)))
    ensures !(flags.handleMethodNotAllowed && AllowedSet(trees, sem, path, httpMethod) != {}) ==>
      Decide(flags, trees, sem, notAllowed, notFound, httpMethod, path) ==
      NotFound(notFound.GetOr(ErrorReply(StatusNotFound)))
  {
  }

  /** The OPTIONS and 405 replies never list OPTIONS among the allowed methods,
      and for a specific path never the requested method either. */
  lemma AllowExcludesOptionsAndRequested(flags: Flags, trees: map<string, Router>, sem: TreeSemantics,
                                         notAllowed: Option<Handler>, notFound: Option<Handler>, httpMethod: string, path: string)
    requires Decide(flags, trees, sem, notAllowed, notFound, httpMethod, path).AutoOptions? ||
             Decide(flags, trees, sem, notAllowed, notFound, httpMethod, path).MethodNotAllowed?
    ensures MethodOptions !in Decide(flags, trees, sem, notAllowed, notFound, httpMethod, path).allow
    ensures path != "*" ==> httpMethod !in Decide(flags, trees, sem, notAllowed, notFound, httpMethod, path).allow
    ensures Decide(flags, trees, sem, notAllowed, notFound, httpMethod, path).allow != {}
  {
  }
}
