/** The `get_ticket_status` Cloud Function: a read-only query that lets a
    customer see the status and conversation of one of their own tickets. */
module TicketStatus {
  import opened Wrappers
  import opened Tickets
  import opened DocStore
  import opened Http

  const MissingFieldsError := "Missing ticketId or userId"
  const NotFoundError := "Ticket not found"
  const UnauthorizedError := "Unauthorized"

  /** The fields a customer may see: id, status, priority, creation time and
      the history (`[]` when absent). */
  function Project(id: TicketId, t: Ticket): Payload {
    StatusPayload(id, t.status, t.priority, t.createdAt, History(t))
  }

  /** One call of `get_ticket_status` with query arguments `args`. */
  function Query(s: Store, args: Json, fault: Option<string>): (o: Outcome)
    ensures o.store == s
    ensures !(Supplied(args, "ticketId") && Supplied(args, "userId")) ==>
      o.response == Response(400, ErrorPayload(MissingFieldsError))
    ensures Supplied(args, "ticketId") && Supplied(args, "userId") && fault.Some? ==>
      o.response == Response(500, ErrorPayload(fault.value))
    ensures Supplied(args, "ticketId") && Supplied(args, "userId") && fault.None? ==>
      var id := args["ticketId"];
      && (id !in s ==> o.response == Response(404, ErrorPayload(NotFoundError)))
      && (id in s && s[id].userId != args["userId"] ==>
            o.response == Response(403, ErrorPayload(UnauthorizedError)))
    ensures o.response.code == 200 <==>
      && Supplied(args, "ticketId") && Supplied(args, "userId") && fault.None?
      && args["ticketId"] in s && s[args["ticketId"]].userId == args["userId"]
    ensures o.response.code == 200 ==>
      var t := s[args["ticketId"]];
      && o.response.payload.StatusPayload?
      && o.response.payload.ticketId == args["ticketId"]
      && o.response.payload.status == t.status
      && o.response.payload.priority == t.priority
      && o.response.payload.createdAt == t.createdAt
      && (t.chatHistory.Some? ==> o.response.payload.chatHistory == t.chatHistory.value)
      && (t.chatHistory.None? ==> o.response.payload.chatHistory == [])
    ensures o.response.code != 200 ==> o.response.payload.ErrorPayload?
  {
    if !(Supplied(args, "ticketId") && Supplied(args, "userId")) then
      Outcome(Response(400, ErrorPayload(MissingFieldsError)), s)
    else if fault.Some? then
      ServerError(s, Unavailable(fault.value))
    else
      var id := args["ticketId"];
      if id !in s then
        Outcome(Response(404, ErrorPayload(NotFoundError)), s)
      else if s[id].userId != args["userId"] then
        Outcome(Response(403, ErrorPayload(UnauthorizedError)), s)
      else
        Outcome(Response(200, Project(id, s[id])), s)
  }

  /** Two tickets give the same answer exactly when they agree on the
      status, the priority, the creation time and the history, an absent
      history counting as `[]`. */
  lemma ProjectShowsExactlyVisible(id: TicketId, t: Ticket, u: Ticket)
    ensures Project(id, t) == Project(id, u) <==>
      && t.status == u.status && t.priority == u.priority
      && t.createdAt == u.createdAt && History(t) == History(u)
  {
  }

  /** Fields a successful answer never reveals. */
  const HiddenFields: set<Field> :=
    {AssignedAgentField, SentimentField, SubjectField, DescriptionField,
     AssignedAtField, ResolvedAtField, TicketIdField}

  /** The answer depends on a ticket only through its owner and the projected
      fields: rewriting any hidden field (the assignee, the sentiment, the
      subject and description, the assignment and resolution times, the
      stored `ticketId`) of any ticket never changes what any caller sees. */
  lemma QueryHidesOtherFields(s: Store, id: TicketId, t': Ticket, args: Json, fault: Option<string>)
    requires id in s && SameOutside(s[id], t', HiddenFields)
    ensures Query(s, args, fault).response == Query(s[id := t'], args, fault).response
  {
    var t := s[id];
    assert Get(t, UserIdField) == Get(t', UserIdField);
    assert Get(t, StatusField) == Get(t', StatusField);
    assert Get(t, PriorityField) == Get(t', PriorityField);
    assert Get(t, CreatedAtField) == Get(t', CreatedAtField);
    assert Get(t, ChatHistoryField) == Get(t', ChatHistoryField);
    assert Project(id, t) == Project(id, t');
  }
}
