/** What a route handler answers: an HTTP status and a JSON body. */
module Http {
  datatype Response<B> = Response(status: int, body: B)

  const OK := 200
  const BadRequest := 400
  const Unauthorized := 401
  const NotFound := 404
  const ServerError := 500
}
