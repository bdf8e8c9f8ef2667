/** The HTTP exceptions the services throw, reduced to a status code and a message. */
module Http {

  const FORBIDDEN: int := 403
  const INTERNAL_SERVER_ERROR: int := 500

  datatype HttpError = HttpError(status: int, message: string)
}
