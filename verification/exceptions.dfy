/** The exceptions the services and the controller throw, the HTTP-style
    response they become, and the global exception handler that maps one to
    the other. */
module Exceptions {

  /** The exception classes the core throws, each with its message. */
  datatype Thrown =
    | UserAlreadyRegistered(message: string)  // UserAlreadyRegisteredException
    | InvalidEmailFormat(message: string)     // InvalidEmailFormatException
    | Runtime(message: string)                // any other exception (RuntimeException)

  /** A response: a status code and a body. */
  datatype Response<+T> = Response(status: int, body: T)

  const OK: int := 200
  const BAD_REQUEST: int := 400
  const FORBIDDEN: int := 403
  const CONFLICT: int := 409
  const INTERNAL_SERVER_ERROR: int := 500

  /** `GlobalExceptionHandler`: a duplicate registration becomes 409, a
      malformed email 400, and everything else 500; the body is always the
      exception's message, unchanged. */
  function Handle(f: Thrown): (r: Response<string>)
    ensures f.UserAlreadyRegistered? ==> r.status == CONFLICT
    ensures f.InvalidEmailFormat? ==> r.status == BAD_REQUEST
    ensures f.Runtime? ==> r.status == INTERNAL_SERVER_ERROR
    ensures r.body == f.message
  {
    match f
    case UserAlreadyRegistered(m) => Response(CONFLICT, m)
    case InvalidEmailFormat(m) => Response(BAD_REQUEST, m)
    case Runtime(m) => Response(INTERNAL_SERVER_ERROR, m)
  }

  /** Only the two typed exceptions produce a client-error (4xx) status;
      the status alone tells which of the three kinds was thrown. */
  lemma HandleStatusDeterminesKind(f: Thrown, g: Thrown)
    ensures Handle(f).status < 500 <==> !f.Runtime?
    ensures Handle(f).status == Handle(g).status <==>
              (f.UserAlreadyRegistered? == g.UserAlreadyRegistered? &&
               f.InvalidEmailFormat? == g.InvalidEmailFormat?)
  {
  }
}
