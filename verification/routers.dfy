/** The `Router` interface of router.go. The prefix tree behind it (`NewPrefixTree`)
    is not part of this model: a router is represented by the routes added to it,
    in order, and what `Find` and `FindCaseInsensitivePath` answer for those routes
    is a parameter (`TreeSemantics`) about which nothing is assumed. */
module Routers {
  import opened Values

  /** One `Add(path, handlers)` call. */
  datatype Route = Route(path: string, handlers: seq<Handler>)

  /** A method's tree, given by the routes added to it. */
  datatype Router = Router(routes: seq<Route>)

  /** What `Find` returns: the handler chain (`None` is Go's nil), the captured
      parameters, and whether a trailing-slash redirect would find a route. */
  datatype Match = Match(handlers: Option<seq<Handler>>, params: seq<Param>, tsr: bool)

  /** What `FindCaseInsensitivePath` returns: the corrected path and whether one
      was found. */
  datatype CaseFix = CaseFix(path: string, found: bool)

  /** The behaviour of the tree implementation and of `CleanPath`. */
  datatype TreeSemantics = TreeSemantics(
    find: (seq<Route>, string) -> Match,
    findCaseInsensitivePath: (seq<Route>, string, bool) -> CaseFix,
    cleanPath: string -> string)

  /** `NewRouter`: a tree with no routes. */
  function NewRouter(): Router {
    Router([])
  }

  /** `Router.Add`: the tree now also holds the route. */
  function Add(r: Router, path: string, handlers: seq<Handler>): Router {
    Router(r.routes + [Route(path, handlers)])
  }

  function Find(sem: TreeSemantics, r: Router, path: string): Match {
    sem.find(r.routes, path)
  }

  function FindCaseInsensitivePath(sem: TreeSemantics, r: Router, path: string, fixTrailingSlash: bool): CaseFix {
    sem.findCaseInsensitivePath(r.routes, path, fixTrailingSlash)
  }
}
