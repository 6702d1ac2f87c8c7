/** Requests and responses of the Cloud Function handlers, reduced to what the
    handlers inspect: a JSON object of string fields (or none at all), and a
    status code with a payload. */
module Http {
  import opened Wrappers
  import opened Tickets
  import opened DocStore

  /** A parsed JSON request body (or query-string arguments); `None` when
      `get_json(silent=True)` yields nothing. */
  type Json = map<string, string>

  /** Python's `not request_json`: no body, or an empty object. */
  predicate NoData(body: Option<Json>) {
    body.None? || |body.value| == 0
  }

  /** Python truthiness of `j.get(key)` for a string field: present and non-empty. */
  predicate Supplied(j: Json, key: string) {
    key in j && j[key] != ""
  }

  /** The JSON payloads the handlers return. */
  datatype Payload =
    | ErrorPayload(error: string)
    | CreatedPayload(ticketId: TicketId, priority: Priority, status: Status)
    | ReplyPayload(reply: string)
    | AssignedPayload(success: bool, message: string)
    | StatusPayload(ticketId: TicketId, status: Status, priority: Priority,
                    createdAt: Option<nat>, chatHistory: seq<ChatEntry>)

  datatype Response = Response(code: int, payload: Payload)

  /** One handler invocation as an atomic step: what it answered and the
      collection afterwards. */
  datatype Outcome = Outcome(response: Response, store: Store)

  /** The store exception handler shared by all four functions: status 500 with
      the exception text, and no write. */
  function ServerError(s: Store, e: StoreError): Outcome
  {
    Outcome(Response(500, ErrorPayload(ErrorText(e))), s)
  }
}
