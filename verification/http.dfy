/** What a handler hands back: an HTTP response for the API routes, a plain
    result object for the server actions, and the store after the call. */
module Http {
  import opened Common
  import opened Store

  /** The request as a route sees it: lower-cased header names and the body
      `req.json()` parses, or the message of the exception it throws. */
  datatype RequestBody = JsonBody(json: Json) | MalformedBody(message: string)

  datatype Request = Request(headers: map<string, string>, body: RequestBody)

  /** `headers.get(name)`. */
  function Header(req: Request, name: string): Option<string> {
    if name in req.headers then Some(req.headers[name]) else None
  }

  datatype Body =
    | ErrorBody(message: string)                            // { error }
    | BookingBody(id: Id, booking: Booking, redirectUrl: string)   // { success: true, booking, redirectUrl }
    | ReceivedBody                                          // { received: true }
    | ClientSecretBody(clientSecret: Option<string>)        // { clientSecret }
    | MessageBody(message: string)                          // { message }
    | UserBody(id: Id, name: string, email: string, message: string)  // { user: { id, name, email }, message }
    | CaptureBody(success: bool, captureStatus: Option<string>)       // { success } or { success: false, status }
    | StoreFailureBody                                      // { error: <the store exception's message> }
    | UncaughtBody                                          // the framework's page for an exception that escaped the handler

  datatype Response = Response(status: int, body: Body)

  function Fail(status: int, message: string): Response {
    Response(status, ErrorBody(message))
  }

  /** A route's effect: the store afterwards and the response. */
  datatype Outcome = Outcome(state: State, response: Response)

  /** A server action's returned object: `{ success: true }`, `{ error }`, or
      the error it throws. */
  datatype ActionResult = ActionOk | ActionError(message: string) | ActionThrew(message: string)

  datatype ActionOutcome = ActionOutcome(state: State, result: ActionResult)
}
