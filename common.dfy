/** Values shared by every service: optional values, the HTTP error kinds a
    service throws, and the result of a service call (a value or an error). */
module Common {

  datatype Option<+T> = None | Some(value: T) {
    function GetOr(default: T): T {
      match this
      case Some(v) => v
      case None => default
    }
  }

  /** The four exception classes the services throw.  A plain `Error` or an
      uncaught database error reaches the client as a 500 as well, so it is
      modelled as InternalServerError. */
  datatype Error = BadRequest | NotFound | Unauthorized | InternalServerError

  datatype Result<+T> = Ok(value: T) | Err(error: Error)

  /** JavaScript truthiness of an optional text: absent and "" are falsy. */
  predicate NonEmpty(s: Option<string>) {
    s.Some? && s.value != ""
  }

  /** JavaScript truthiness of an optional numeric id: absent (null or
      undefined) and 0 are falsy. */
  predicate Present(n: Option<nat>) {
    n.Some? && n.value != 0
  }
}
