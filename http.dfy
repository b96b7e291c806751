/**
 * What the route handlers exchange with the outside: the JSON response
 * they build, and the reply of an upstream `fetch`.
 */
module Http {
  import opened Wrappers
  import opened Strings

  /** 200 OK, the status `NextResponse.json` uses when none is given. */
  const StatusOk := 200
  /** 400 Bad Request (RFC 9110, section 15.5.1). */
  const StatusBadRequest := 400
  /** 401 Unauthorized (RFC 9110, section 15.5.2). */
  const StatusUnauthorized := 401
  /** 500 Internal Server Error (RFC 9110, section 15.6.1). */
  const StatusInternalError := 500

  const InternalErrorMessage := "Internal server error"

  /** The upstream product and identity service. */
  const DefaultUpstream := "https://dummyjson.com"

  /** `process.env.DUMMYJSON_URL || "https://dummyjson.com"`, with the variable as `env`. */
  function UpstreamBase(env: Option<string>): string {
    OrElse(env, DefaultUpstream)
  }

  /** A JSON body: either `{ message }` or a data object. */
  datatype Body<+D> = Message(text: string) | Data(data: D)

  datatype Response<+D> = Response(status: int, body: Body<D>)

  /** `NextResponse.json({ message }, { status })`. */
  function Error<D>(status: int, message: string): Response<D> {
    Response(status, Message(message))
  }

  /** `NextResponse.json(data)`: status 200 with the data as body. */
  function Success<D>(data: D): Response<D> {
    Response(StatusOk, Data(data))
  }

  /** A request sent upstream with `fetch`: the URL and what it carries (a body or a header). */
  datatype Outgoing<+B> = Outgoing(url: string, payload: B)

  /**
   * The outcome of an upstream `fetch`: it threw (network failure), or a
   * reply arrived with a status; `body` is `None` when `response.json()`
   * would throw.
   */
  datatype Upstream<+D> = Threw | Replied(status: int, body: Option<D>) {
    /** `response.ok`: the status is in the range 200-299. */
    predicate Ok() {
      Replied? && 200 <= status <= 299
    }
  }
}
