/** Values shared by the handlers: optional request fields, results, and the
    error a handler throws after setting the response status. */
module Http {

  datatype Option<+T> = None | Some(value: T)

  datatype Result<+T, +E> = Success(value: T) | Failure(error: E)

  /** What a handler throws: the status it set with `res.status(...)` before
      throwing (0 when it set none) and the message of the thrown `Error`. */
  datatype HttpError = HttpError(status: nat, message: string)

  /** How a handler ends: it either sends a JSON body with a status, or throws. */
  datatype Response<+T> = Sent(status: nat, body: T) | Thrown(error: HttpError)

  /** JavaScript falsiness of an optional string field of a request body:
      an absent field and the empty string are both falsy. */
  predicate Falsy(field: Option<string>)
    ensures !Falsy(field) <==> field.Some? && |field.value| > 0
  {
    field.None? || field.value == ""
  }
}
