/** The HTTP error responses the routers raise. */
module Http {

  datatype HttpError =
    | BadRequest(detail: string)      // 400, e.g. a duplicate shipment code
    | NotFound(detail: string)        // 404, an absent primary key
    | UnprocessableEntity             // 422, the request body fails its schema
    | InternalServerError             // 500, an exception the route does not catch

  function StatusCode(e: HttpError): (code: nat)
    ensures 400 <= code < 600
    ensures code < 500 <==> !e.InternalServerError?
  {
    match e
    case BadRequest(_) => 400
    case NotFound(_) => 404
    case UnprocessableEntity => 422
    case InternalServerError => 500
  }
}
