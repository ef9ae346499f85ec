/** Values shared by every part of the gweb model: optional values, handlers,
    URL parameters, the HTTP method names and the status codes the router uses. */
module Values {

  datatype Option<+T> = None | Some(value: T) {
    function GetOr(default: T): T {
      match this
      case Some(v) => v
      case None => default
    }
  }

  /** Result of a registration step: either it went through or the Go code panics
      with the given message. */
  datatype Check = Ok | Panic(message: string)

  /** A request handler. Handlers are opaque functions in Go; the model keeps what
      the router can observe of one: an identity, and how many times it calls
      `Context.Next` while it runs. `ErrorReply(code)` is the handler the server
      installs by default for 404 and 405 replies (an `http.Error` call). */
  datatype Handler = User(id: nat, nextCalls: nat) | ErrorReply(code: nat)

  function NextCalls(h: Handler): nat {
    match h
    case User(_, n) => n
    case ErrorReply(_) => 0
  }

  /** An opaque value stored in a context's user-data map (Go `interface{}`). */
  datatype Datum = Datum(id: nat)

  /** A single URL parameter: a key and a value. */
  datatype Param = Param(key: string, value: string)

  const MethodGet := "GET"
  const MethodPost := "POST"
  const MethodHead := "HEAD"
  const MethodOptions := "OPTIONS"
  const MethodPut := "PUT"
  const MethodDelete := "DELETE"
  const MethodTrace := "TRACE"
  const MethodConnect := "CONNECT"
  const MethodPatch := "PATCH"

  const StatusMovedPermanently: nat := 301
  const StatusTemporaryRedirect: nat := 307
  const StatusNotFound: nat := 404
  const StatusMethodNotAllowed: nat := 405
}
