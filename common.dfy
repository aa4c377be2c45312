/** Values shared by every part of the model: optional values, results of
    endpoints that can fail, and the HTTP errors the endpoints raise. */
module Common {

  datatype Option<+T> = None | Some(value: T)

  /** An HTTP error as raised by FastAPI's HTTPException: status code and detail. */
  datatype HttpError = HttpError(status: nat, detail: string)

  /** What an endpoint returns: its response body, or the error it raises. */
  datatype Result<+T> = Ok(value: T) | Err(error: HttpError)

  /** FastAPI rejects a query parameter outside its declared bounds with 422
      before the endpoint body runs. */
  const ValidationError: HttpError := HttpError(422, "Query validation failed")
}
