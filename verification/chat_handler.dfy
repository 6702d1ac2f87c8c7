/** The `chat_handler` Cloud Function: records a customer message and the
    automated reply in the ticket's `chatHistory` and returns the reply. */
module ChatHandler {
  import opened Wrappers
  import opened Tickets
  import opened DocStore
  import opened Http
  import opened Responder

  const NoDataError := "No data provided"
  const MissingFieldsError := "Missing message or ticketId"
  const NotFoundError := "Ticket not found"

  /** The request names a message and a ticket, both non-empty. */
  predicate Complete(j: Json) {
    Supplied(j, "message") && Supplied(j, "ticketId")
  }

  /** The history after the call: the stored one (or `[]`) followed by the
      user entry and the bot entry. */
  function WithExchange(t: Ticket, message: string, reply: string, userAt: nat, botAt: nat): (u: Ticket)
    ensures |History(u)| == |History(t)| + 2
    ensures History(u)[..|History(t)|] == History(t)
    ensures History(u)[|History(t)|] == ChatEntry(User, message, userAt)
    ensures History(u)[|History(t)| + 1] == ChatEntry(Bot, reply, botAt)
    ensures u.chatHistory.Some? && SameOutside(t, u, {ChatHistoryField})
  {
    t.(chatHistory := Some(History(t) + [ChatEntry(User, message, userAt), ChatEntry(Bot, reply, botAt)]))
  }

  /** One call of `chat_handler`. `userAt` and `botAt` are the two clock
      readings taken for the entries; `fault` a failure of the store. */
  function Handle(s: Store, body: Option<Json>, userAt: nat, botAt: nat, fault: Option<string>): (o: Outcome)
    ensures NoData(body) ==> o == Outcome(Response(400, ErrorPayload(NoDataError)), s)
    ensures !NoData(body) && !Complete(body.value) ==>
      o == Outcome(Response(400, ErrorPayload(MissingFieldsError)), s)
    ensures !NoData(body) && Complete(body.value) && fault.Some? ==>
      o == Outcome(Response(500, ErrorPayload(fault.value)), s)
    ensures !NoData(body) && Complete(body.value) && fault.None? && body.value["ticketId"] !in s ==>
      o == Outcome(Response(404, ErrorPayload(NotFoundError)), s)
    ensures o.response.code == 200 <==>
      !NoData(body) && Complete(body.value) && fault.None? && body.value["ticketId"] in s
    ensures o.response.code != 200 ==> o.store == s
    ensures o.response.code == 200 ==>
      var id := body.value["ticketId"];
      && OnlyTouches(s, o.store, id)
      && SameOutside(s[id], o.store[id], {ChatHistoryField})
      && o.response.payload == ReplyPayload(Respond(body.value["message"]))
  {
    if NoData(body) then
      Outcome(Response(400, ErrorPayload(NoDataError)), s)
    else if !Complete(body.value) then
      Outcome(Response(400, ErrorPayload(MissingFieldsError)), s)
    else
      var message := body.value["message"];
      var id := body.value["ticketId"];
      var reply := Respond(message);
      if fault.Some? then
        ServerError(s, Unavailable(fault.value))
      else if id !in s then
        Outcome(Response(404, ErrorPayload(NotFoundError)), s)
      else
        Outcome(Response(200, ReplyPayload(reply)), s[id := WithExchange(s[id], message, reply, userAt, botAt)])
  }

  /** A successful call appends exactly two entries: the user's message
      verbatim, then a bot entry whose text is the reply returned to the
      caller. Everything stored before is kept, in order. */
  lemma AppendsUserThenBot(s: Store, body: Option<Json>, userAt: nat, botAt: nat)
    requires !NoData(body) && Complete(body.value) && body.value["ticketId"] in s
    ensures var o := Handle(s, body, userAt, botAt, None);
      var id := body.value["ticketId"];
      var before := History(s[id]);
      var after := History(o.store[id]);
      && o.response.code == 200
      && |after| == |before| + 2
      && after[..|before|] == before
      && after[|before|] == ChatEntry(User, body.value["message"], userAt)
      && after[|before| + 1].sender == Bot
      && o.response.payload == ReplyPayload(after[|before| + 1].message)
      && after[|before| + 1].timestamp == botAt
  {
  }

  /** A ticket whose document has no `chatHistory` ends up with exactly the two
      new entries. */
  lemma AbsentHistoryStartsEmpty(s: Store, body: Option<Json>, userAt: nat, botAt: nat)
    requires !NoData(body) && Complete(body.value)
    requires body.value["ticketId"] in s && s[body.value["ticketId"]].chatHistory == None
    ensures var o := Handle(s, body, userAt, botAt, None);
      |History(o.store[body.value["ticketId"]])| == 2
  {
  }
}
