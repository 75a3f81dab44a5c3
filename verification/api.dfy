/** The HTTP request and response of one endpoint call, as far as the handlers read and write them. */
module Api {
  import opened Models
  import opened Store

  datatype Request = Request(
    pathParameters: map<string, string>,
    queryParameters: map<string, string>,
    body: string)

  /** A path parameter, or "" when absent (the zero value of a Go map lookup). */
  function PathParameter(request: Request, name: string): string {
    if name in request.pathParameters then request.pathParameters[name] else ""
  }

  const StatusOK: int := 200
  const StatusAccepted: int := 202
  const StatusNoContent: int := 204
  const StatusBadRequest: int := 400
  const StatusNotFound: int := 404
  const StatusConflict: int := 409
  const StatusInternalServerError: int := 500

  /** A request-body validation error: the JSON field it refers to and a message. */
  datatype ValidationError = ValidationError(fieldRef: string, errorMessage: string)

  /** A path-parameter validation error. */
  datatype PathValidationError = PathValidationError(pathRef: string, errorMessage: string)

  /** The validation errors the create and update endpoints report for a blank name or genre. */
  const EmptyNameError: ValidationError := ValidationError("name", "value must not be empty")
  const EmptyGenreError: ValidationError := ValidationError("genres", "array value must not be empty")

  const InvalidRequestBody: string := "invalid request body"

  /** The JSON body of a response. */
  datatype Body =
    | NoBody
    | ErrorMessage(message: string)
    | Invalid(error: ValidationError)
    | InvalidPath(pathError: PathValidationError)
    | Artist(artist: ArtistInfo)
    | Artists(artists: seq<ArtistInfo>)

  datatype Response = Response(statusCode: int, body: Body)

  /** A handler's response together with the store calls it made, in order. */
  datatype Exchange = Exchange(response: Response, calls: seq<Call>)
}
