/** The parts of the servlet and Spring MVC world the handlers touch: response
    statuses and bodies, the filter chain, response headers and the security
    context holding the current authentication. */
module Http {
  import opened Common

  /** The HTTP statuses the handlers answer with. */
  datatype Status = Ok | Created | NoContent | Forbidden | NotFound | Conflict

  function Code(s: Status): int
  {
    match s
    case Ok => 200
    case Created => 201
    case NoContent => 204
    case Forbidden => 403
    case NotFound => 404
    case Conflict => 409
  }

  /** A response body: none, a text message, or an entity or list of entities. */
  datatype Body<+T> = NoBody | Text(message: string) | Content(value: T)

  /** Spring's `ResponseEntity`. */
  datatype Response<+T> = Response(status: Status, body: Body<T>)

  /** The servlet filter chain; only the number of times it was invoked matters. */
  class FilterChain {
    var invocations: nat

    constructor ()
      ensures invocations == 0
    {
      invocations := 0;
    }

    method DoFilter()
      modifies this
      ensures invocations == old(invocations) + 1
    {
      invocations := invocations + 1;
    }
  }

  /** The headers added to an HTTP response, in order. */
  class ServletResponse {
    var headers: seq<(string, string)>

    constructor ()
      ensures headers == []
    {
      headers := [];
    }

    method AddHeader(name: string, value: string)
      modifies this
      ensures headers == old(headers) + [(name, value)]
    {
      headers := headers + [(name, value)];
    }
  }

  /** The security context of the current request: the authentication set by
      the filters, or null. */
  class SecurityContext<P> {
    var authentication: Option<P>

    constructor (authentication: Option<P>)
      ensures this.authentication == authentication
    {
      this.authentication := authentication;
    }

    method SetAuthentication(a: Option<P>)
      modifies this
      ensures authentication == a
    {
      authentication := a;
    }
  }
}
