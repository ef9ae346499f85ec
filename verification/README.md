# gweb routing layer in Dafny

A model of the request-routing core of gweb, a small Go web framework, with
proofs about it. It covers:

- **The server** (`Gweb.Server`). It holds four switches, the optional 404 and
  405 handlers, one routing tree per HTTP method and a root route group.
  `HandleRequest` carries out `handleRequest` step by step on a `Context`. It is
  proved to do exactly what the pure function `Dispatch.Decide` says:
  - run the chain the tree found;
  - redirect with the trailing '/' removed or added;
  - redirect to the case-corrected path;
  - answer OPTIONS automatically;
  - answer 405 with an `Allow` list;
  - or answer 404.

  The redirect part of the decision is its own function, `Dispatch.Redirection`,
  carried out by `Server.Redirect`. The `Dispatch` lemmas prove the precedence rules, the status codes and the
  redirect targets about `Decide`. `Allowed` builds the `Allow` header by a loop
  over the trees in unspecified order.
- **The execution context** (`Contexts.Context`). This covers:
  - the handler chain and its cursor: `Next` runs every remaining handler once,
    in order, whether or not the handlers call `Next` themselves;
  - `reset` for pooled reuse;
  - parameter, query and post-form lookups over already-parsed value maps;
  - the response header rule;
  - the lazily allocated user-data store.

  Each handler is abstract: what is kept of its body is how often it calls
  `Next`. A ghost trace `invoked` records which handler indices ran.
- **Route groups** (`Gweb.RouterGroup`, `Registration`). This covers:
  - nested base paths;
  - global handlers put in front of a route's own handlers;
  - the checks `Handle` makes, with their exact panic messages, as a `Check`
    result;
  - lazy creation of per-method trees;
  - `HandleMethods`, `Any`, `StaticFile` and `StaticFS`.
- **Path joining** (`Utils.JoinPaths`). It is specified against Go's `path.Join`,
  which `GoPath` defines segment by segment. The test cases of
  router_group_test.go are proved as lemmas.

The routing tree is not part of this model. A `Router` value is the list of
routes added to it. What `Find`, `FindCaseInsensitivePath` and `CleanPath`
answer is a parameter of the server (`Routers.TreeSemantics`). Every property
above holds for every tree implementation. `Scenarios` replays the two group
tests:
- `GroupBasic` checks the group lengths and base paths;
- `RequestInGroup` registers two routes and sends two requests to them. It uses
  `StaticTree`, a stand-in tree that only knows static paths. The reporting
  handler runs at index 3 and at index 1, as the test observes.

## Model

| member | source | states |
|---|---|---|
| GoStrings.TrimSpaceSlice | router_group.go:91 | the trimmed method is the input with exactly its leading and trailing white space removed: a contiguous slice of it, all white space outside the slice, none at either end of the slice |
| GoStrings.TrimSpaceIdempotent | router_group.go:91 | trimming a trimmed string changes nothing |
| GoStrings.UpperTokenTrimmed | router_group.go:95-100 | a method name of upper-case letters is unchanged by trimming, so `HandleMethods` registers it as written |
| GoStrings.JoinEndsWithLast | gweb.go:207-210 | joining no elements gives ""; joining some ends with the last element, so a non-empty `Allow` value ends with "OPTIONS" |
| GoPath.CleanSpec | utils.go:12 | path.Clean never returns "", keeps a rooted path rooted, and ends in '/' only for "/" |
| GoPath.JoinSpec | utils.go:12 | path.Join is "" exactly when both parts are, ends in '/' only for "/", and keeps a rooted first part rooted |
| GoPath.SplitJoinSlash | utils.go:12 | splitting a '/'-joined list of slash-free segments gives the segments back |
| GoPath.ResolveClean | utils.go:12 | resolving leaves no empty, "." or slash-carrying segment, so the cleaned path never ends in '/' unless it is the root |
| Utils.LastChar | utils.go:20-26 | the last character of a non-empty string; the failure case exactly for "" |
| Utils.JoinPathsSpec | utils.go:7-18 | an empty relative path returns the base unchanged; otherwise the result is path.Join's output plus at most one '/'; it is exactly path.Join's output when the relative path does not end in '/'; a trailing '/' of the relative path is kept, never doubled; a rooted base stays rooted |
| Utils.JoinRootV1 | router_group_test.go:39-40 | joinPaths("/", "v1") is "/v1" |
| Utils.JoinRootHello | router_group_test.go:12-16 | joinPaths("/", "/hello") is "/hello" |
| Utils.JoinHelloWorld | router_group_test.go:19-23 | joinPaths("/hello", "world") is "/hello/world" |
| Utils.JoinV1Login | router_group_test.go:42-43 | joinPaths("/v1", "/login/") is "/v1/login/" |
| Utils.JoinV1Test | router_group_test.go:49-56 | joinPaths("/v1", "/test") is "/v1/test" |
| Utils.JoinLoginTest | router_group_test.go:50-52 | joinPaths("/v1/login/", "/test") is "/v1/login/test" |
| Contexts.ByName | context.go:20-29 | the value of the first parameter with that key, or "" when no key matches |
| Contexts.SpanAppend | context.go:48-54 | running one range of handler indices and then the next is running the whole range |
| Contexts.Context.constructor | gweb.go:91 | a fresh pooled context has no parameters, no chain, cursor 0, no user data and an empty header |
| Contexts.Context.Reset | context.go:40-46 | request and response are replaced; parameters emptied; chain emptied; cursor set to -1; user data kept |
| Contexts.Context.Next | context.go:48-54 | the cursor only moves forward and ends past the chain; the handlers from the old cursor + 1 to the end run exactly once each, in increasing order |
| Contexts.Context.Invoke | context.go:52 | a handler that does not call `Next` runs alone; one that does also drains the rest of the chain |
| Contexts.Context.Param | context.go:60-62 | the first captured parameter with that name |
| Contexts.Context.GetQueryArray | context.go:64-67 | the values under the key and whether the key is present |
| Contexts.Context.GetQuery | context.go:74-82 | `exist` is true exactly when the key is present; the value is the first one, or "" |
| Contexts.Context.Query | context.go:84-87 | the first query value, or "" when the key is absent or has none |
| Contexts.Context.DefaultQuery | context.go:89-95 | the default exactly when the query value is "", the query value otherwise |
| Contexts.Context.GetPostFormArray | context.go:97-111 | non-empty post-form values first; otherwise the multipart values, consulted only when the multipart form and its file map exist; otherwise nothing; found exactly when the values are non-empty |
| Contexts.Context.GetPostForm | context.go:118-124 | the first value found by `GetPostFormArray`, or "", with the same found flag |
| Contexts.Context.Header | context.go:139-145 | an empty value deletes the key; any other value sets it to exactly that value; other keys unchanged |
| Contexts.Context.UserData | context.go:200-206 | nothing before the store exists; otherwise the stored value exactly when the key is there |
| Contexts.Context.SetUserData | context.go:208-213 | the store exists afterwards; reading the key gives the value; every other key reads as before |
| Registration.Assert | gweb.go:231-235 | passes exactly when the guard holds, and panics with the given message otherwise |
| Registration.CombineHandlers | router_group.go:141-150 | the group's globals followed by the given handlers, length the sum; the input itself when there are no globals |
| Registration.CheckRoute | router_group.go:35-41 | a route is accepted exactly when the path starts with '/', the method is one or more letters A-Z and there is a handler; an empty path is the index-out-of-range panic |
| Registration.CheckRouteMessages | router_group.go:36-41 | each refusal carries the panic of the first failing check, in source order |
| Registration.AddRoute | router_group.go:43-50 | the method's tree is created empty on first use and reused after; it gains the route; every other method's tree is unchanged |
| Registration.HandleAllOk | router_group.go:89-93 | `HandleMethods` succeeds exactly when every trimmed method passes the checks |
| Registration.HandleAllKeys | router_group.go:89-93 | after success, the methods with a tree are the earlier ones plus the trimmed listed ones |
| Registration.HandleAllFrame | router_group.go:89-93 | whatever happens, only listed methods gain a tree, and unlisted methods' trees are untouched |
| Registration.HandleAllGrows | router_group.go:89-93 | registration only appends: every tree that existed keeps its routes, in order, at the front of the new tree |
| Registration.HandleAllRoutes | router_group.go:89-93 | after success, the tree of every listed method, trimmed, holds the route joinPaths(base, path) with the combined chain |
| Registration.TokensRegister | router_group.go:89-93 | a list of upper-case methods with a valid path and a handler registers every listed method: each has a tree afterwards, no other method gains one, and each listed tree holds the route joinPaths(base, path) with the combined chain |
| Registration.AnyMethodsAreTokens | router_group.go:95-99 | the nine methods of `Any` are valid method names, and exactly GET, POST, HEAD, OPTIONS, PUT, DELETE, TRACE, CONNECT and PATCH |
| Registration.AnyRegistersNine | router_group.go:95-101 | `Any` with a valid path and a handler succeeds, gives exactly the nine methods a tree, and each of the nine trees holds the route joinPaths(base, path) with the combined chain |
| Registration.StaticPathCheck | router_group.go:104-106 | a static path is refused, with the source's message, exactly when it contains ':' or '*' |
| Registration.StaticTouchesGetAndHead | router_group.go:132-133 | static registration adds no tree other than GET and HEAD and leaves other methods' trees untouched |
| Dispatch.RedirectCode | gweb.go:132-137 | 301 exactly for GET, 307 for every other method |
| Dispatch.TrailingSlashTarget | gweb.go:139-143 | a path longer than "/" ending in '/' loses exactly that '/'; any other path gains one |
| Dispatch.TrailingSlashTargetInvolutive | gweb.go:139-143 | redirecting twice gives back a non-empty path that does not end in "//" |
| Dispatch.AllowedSetMembers | gweb.go:185-205 | for "*" every registered method but OPTIONS; for a path, exactly the registered methods other than the requested one and OPTIONS whose tree finds a chain |
| Dispatch.DecideRunsFoundChain | gweb.go:123-130 | a chain runs exactly when the method's tree finds one, and then with exactly the tree's parameters and handlers |
| Dispatch.DecideRedirectCode | gweb.go:131-137 | every redirect follows a miss of an existing tree, never for CONNECT or "/", with 301 for GET and 307 otherwise |
| Dispatch.DecideTrailingSlash | gweb.go:138-146 | the trailing-slash redirect fires exactly when the tree reports `tsr` and the switch is on (after a miss, not CONNECT, not "/"), and goes to `TrailingSlashTarget` |
| Dispatch.DecideFixedPath | gweb.go:147-155 | the fixed-path redirect fires exactly when the trailing-slash one did not, the switch is on and the case-insensitive lookup of the cleaned path finds a route; it goes to the path found |
| Dispatch.DecideOptions | gweb.go:159-165 | an OPTIONS request that is not routed never gets 405; it gets the automatic reply exactly when that is on and some method is allowed, 404 otherwise |
| Dispatch.DecideMethodNotAllowed | gweb.go:166-178 | another unrouted method gets 405, with the set or the default handler, exactly when that is on and some method is allowed; otherwise the 404 handler |
| Dispatch.AllowExcludesOptionsAndRequested | gweb.go:185-205 | the OPTIONS and 405 replies list some method, never OPTIONS, and for a path never the requested method |
| Gweb.Server.constructor | gweb.go:82-93 | all four switches on, no custom handlers, no trees, a root group at "/" without globals |
| Gweb.Server.Allowed | gweb.go:185-211 | "" exactly when no method is allowed; otherwise the allowed methods, each once, then "OPTIONS", joined by ", " |
| Gweb.Server.MethodNotAllowedReply | gweb.go:213-220 | a set 405 handler is kept; the default reply is installed only when none is set |
| Gweb.Server.NotFoundReply | gweb.go:222-229 | a set 404 handler is kept; the default reply is installed only when none is set |
| Gweb.Server.HandleRequest | gweb.go:119-179 | the outcome is `Decide` of the server and the request; a found chain is installed and runs from its first handler, each once, in order; a redirect rewrites the request path to its target; the OPTIONS and 405 replies set `Allow`; the 404 and 405 handlers are installed when missing; nothing else in the context changes |
| Gweb.Server.RunChain | gweb.go:125-129 | the context takes the found parameters and chain, and every handler runs once, in order, from index 0 |
| Gweb.Server.Redirect | gweb.go:131-155 | the redirect is `Redirection` of the switches and the tree's answer; a redirect rewrites the request path to its target, and no redirect leaves the request as it was |
| Gweb.Server.ReplyUnrouted | gweb.go:158-178 | the OPTIONS, 405 and 404 branches: the outcome given by the allowed set and the switches, with the `Allow` header and the lazily installed handlers |
| Gweb.Server.ServeHTTP | gweb.go:104-117 | the context is reset and the request handled: a found chain runs from index 0 to its end, each handler once; otherwise no handler of the chain runs; user data is kept |
| Gweb.RouterGroup.constructor | router_group.go:17-23 | the group has the given server, base path and globals |
| Gweb.RouterGroup.Group | router_group.go:25-29 | a new group of the same server with base path joinPaths(parent, relative) and globals parent's followed by the given ones |
| Gweb.RouterGroup.Global | router_group.go:31-33 | the handlers are appended to the globals, in order |
| Gweb.RouterGroup.Handle | router_group.go:35-51 | the result is `CheckRoute`; a refused route changes no tree; an accepted one is `AddRoute` of joinPaths(base, path) with the combined chain |
| Gweb.RouterGroup.HandleMethods | router_group.go:89-93 | the trees and the result are those of registering each trimmed method in order, up to the first refusal |
| Gweb.RouterGroup.Any | router_group.go:95-101 | `HandleMethods` for the nine methods |
| Gweb.RouterGroup.StaticFile | router_group.go:103-111 | a path with ':' or '*' is refused and nothing is registered; otherwise GET and HEAD get the path |
| Gweb.RouterGroup.StaticFS | router_group.go:113-134 | a relative path with ':' or '*' is refused and nothing is registered; otherwise GET and HEAD get path.Join(relative, "/*filepath") |
| Scenarios.TestRouteAccepted | router_group_test.go:49-50 | each of the nine methods passes `Handle`'s checks for "/test" with one handler |
| Scenarios.GroupsInTest | router_group_test.go:38-43 | the groups of the request test get base paths "/v1" and "/v1/login/" and one and three globals |
| Scenarios.RegisterInGroup | router_group_test.go:38-50 | the method's tree holds "/v1/test" with two handlers and "/v1/login/test" with four |
| Scenarios.StaticRouteRuns | router_group_test.go:52-58 | with the static tree, each registered path runs its own chain |

## Left out

- The routing tree (`NewPrefixTree`), its conflict panics in `Add`, and `CleanPath`: they are not part of this model. Their answers are the parameter `TreeSemantics`, about which nothing is assumed. `StaticTree` is only a stand-in for replaying the tests.
- Context pooling (`sync.Pool`, `getContext`, `putContext`): `ServeHTTP` takes the pooled context as a parameter. Concurrency is not modelled.
- The `PanicHandler` and `recover` in `ServeHTTP`: a panic is modelled as a `Check` result at registration and is not modelled during serving.
- `Run` and `http.ListenAndServe`: network I/O, not modelled.
- What `http.Redirect` and `http.Error` write: the status, the `Location` header built from `req.URL.String()`, and the body. The outcome records the code and the target path instead.
- Go's canonical header-key spelling: header keys are compared as given.
- The bodies of handlers, the 404 and 405 defaults included: a handler is modelled only by how often it calls `Next`. `Invoke` records each run in the ghost trace.
- Gweb.Server.HandleRequest: the 404 and 405 handlers run outside the chain, and what they do to the context is not modelled.
- `ParseForm`, `ParseMultipartForm` and URL query parsing: the parsed value maps are inputs in `Request`. Their side effects and errors are not modelled.
- Cookies, `Status`, `Render`, `String`, `JSON` and `XML`: response writing, not modelled.
- The per-method shortcuts `GET`, `POST` and so on, and `QueryArray`, `PostFormArray` and `PostForm`: one-line wrappers, not modelled separately.
- `StaticDir`, `OnlyFilesFS`, the file server behind `StaticFS` and `c.File`: file I/O. The serving handler is a parameter.
- The absolute path `StaticFS` strips before serving: it only matters inside the file server.
- option.go: its setters are not part of this model.
- Gweb.RouterGroup.Handle: trees are values, so the Go aliasing of one `Router` shared by the map and the local variable is not modelled. Neither are handler slices shared between groups.
- Contexts.Context.Reset: `params[:0]` keeps the old backing array in Go; here the parameters are just the empty sequence.
- Strings are sequences of characters everywhere, where Go works on bytes (`path[0]`, `lastChar`, `path.Clean`, `path.Join`, the `^[A-Z]+$` check) or on runes (`strings.TrimSpace`). For the ASCII paths and method names routing uses, this changes nothing; `IsSpace` is Unicode white space, as `strings.TrimSpace` uses it.
- Utils.LastChar: returns a `char` rather than Go's byte, since strings are sequences of characters here. The panic is the `None` case.
- Gweb.Server.Allowed: the order of the methods in the `Allow` value follows Go's unspecified map order. Only the set of methods, their uniqueness and the final "OPTIONS" are stated.
