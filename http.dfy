/** The three kinds of answer the gateway's actix handlers give. An error
    body is "Error: " followed by the Debug rendering of the error; it is
    kept here as the error value itself. */
module Http {
  import opened Demkit

  datatype Response<+T> =
    | Ok200(body: T)
    | BadRequest400(reason: string)
    | InternalError500(error: ApiError)
}
