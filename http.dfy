/** The shape of a gin handler's reply: a status code with either the JSON
    body of a success or an `{"error": ...}` body. */
module Http {
  const StatusOK: int := 200
  const StatusCreated: int := 201
  const StatusBadRequest: int := 400
  const StatusUnauthorized: int := 401
  const StatusForbidden: int := 403
  const StatusNotFound: int := 404
  const StatusInternalServerError: int := 500

  datatype Reply<T> = Success(status: int, body: T) | Failure(status: int, error: string)

  /** The reply every authenticated route gives when the middleware set no
      user id. */
  const NotAuthenticated: string := "User not authenticated"

  /** gin's c.Query and c.Param: the value of a parameter, "" when absent. */
  function Param(q: map<string, string>, key: string): string {
    if key in q then q[key] else ""
  }
}
