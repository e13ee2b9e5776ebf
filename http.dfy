/** The slice of `net/http` the handlers use: status codes and the two
    ways a handler answers. */
module Http {

  /** `http.Error(w, message, code)`, or a JSON-encoded body with a status. */
  datatype Reply<T> = HttpError(code: int, message: string) | Json(code: int, body: T)

  const StatusOK: int := 200
  const StatusCreated: int := 201
  const StatusNoContent: int := 204
  const StatusBadRequest: int := 400
  const StatusUnauthorized: int := 401
  const StatusForbidden: int := 403
  const StatusNotFound: int := 404
  const StatusConflict: int := 409
  const StatusInternalServerError: int := 500

  /** The body `http.Error` writes: the message and a line break. */
  function ErrorBody(message: string): string
  {
    message + "\n"
  }
}
