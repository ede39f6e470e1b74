/** JSON responses and the result of handling one request against the store. */
module Http {
  import opened Wrappers
  import opened Entities

  const StatusOk: int := 200
  const StatusBadRequest: int := 400
  const StatusUnauthorized: int := 401
  const StatusForbidden: int := 403
  const StatusNotFound: int := 404
  const StatusServerError: int := 500

  /** The JSON bodies the server sends. */
  datatype Body =
    | ErrorBody(error: string)
    | ProfileBody(id: string, email: string, name: Option<string>)
    | ReviewsBody(reviews: seq<Record>)
    | ReviewCreatedBody(review: Review)
    | SuccessBody
    | PlanBody(plan: string)
    | PlanUpdatedBody(plan: string)
    | CheckoutBody(url: string)
    | ReceivedBody

  datatype Response = Response(status: int, body: Body)

  /** A handler's response together with the store as the handler leaves it. */
  datatype Handled = Handled(response: Response, store: Store)

  function Reply(body: Body): Response {
    Response(StatusOk, body)
  }

  function Fail(status: int, message: string): Response {
    Response(status, ErrorBody(message))
  }
}
