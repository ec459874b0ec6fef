/**
 * What the components see of an HTTP exchange. The shared axios instance
 * (app/api/instance.ts) is built with `validateStatus: () => true`, so every
 * status resolves to a reply and only a transport failure makes the request
 * throw. The request itself is not modelled: its response is an input.
 */
module Http {

  const Ok := 200
  const Created := 201
  const NoContent := 204

  /** A resolved request carries its status and its decoded body; a thrown one carries nothing. */
  datatype Response<T> = Reply(status: int, body: T) | NetworkError

  /** The two session endpoints of the auth flows. */
  datatype Endpoint = UsersMe | AuthRefresh

  predicate IsOk<T>(r: Response<T>) {
    r.Reply? && r.status == Ok
  }

  predicate HasStatus<T>(r: Response<T>, code: int) {
    r.Reply? && r.status == code
  }
}
