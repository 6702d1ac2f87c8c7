/** The `agent_assign` Cloud Function: sets the assignee and moves the ticket
    to in_progress with one unconditional field update. */
module AgentAssign {
  import opened Wrappers
  import opened Tickets
  import opened DocStore
  import opened Http

  const NoDataError := "No data provided"
  const MissingFieldsError := "Missing ticketId or agentId"
  const SuccessMessage := "Ticket assigned successfully"

  /** The three fields the update writes. */
  const AssignFields: set<Field> := {AssignedAgentField, StatusField, AssignedAtField}

  predicate Complete(j: Json) {
    Supplied(j, "ticketId") && Supplied(j, "agentId")
  }

  /** The update patch: it writes the three fields and leaves every other
      one alone; nothing about the current document is consulted. */
  function Assigned(t: Ticket, agent: AgentId, now: nat): (u: Ticket)
    ensures u.assignedAgent == Some(agent) && u.status == InProgress && u.assignedAt == Some(now)
    ensures SameOutside(t, u, AssignFields)
  {
    t.(assignedAgent := Some(agent), status := InProgress, assignedAt := Some(now))
  }

  /** One call of `agent_assign`. `now` is the server timestamp and `fault` a
      failure of the store; an update of a missing document also raises. */
  function Assign(s: Store, body: Option<Json>, now: nat, fault: Option<string>): (o: Outcome)
    ensures NoData(body) ==> o == Outcome(Response(400, ErrorPayload(NoDataError)), s)
    ensures !NoData(body) && !Complete(body.value) ==>
      o == Outcome(Response(400, ErrorPayload(MissingFieldsError)), s)
    ensures !NoData(body) && Complete(body.value) && fault.Some? ==>
      o == Outcome(Response(500, ErrorPayload(fault.value)), s)
    ensures !NoData(body) && Complete(body.value) && fault.None? && body.value["ticketId"] !in s ==>
      o == Outcome(Response(500, ErrorPayload(ErrorText(NoDocument(body.value["ticketId"])))), s)
    ensures o.response.code == 200 <==>
      !NoData(body) && Complete(body.value) && fault.None? && body.value["ticketId"] in s
    ensures o.response.code != 200 ==> o.store == s
    ensures o.response.code == 200 ==>
      var id := body.value["ticketId"];
      && o.response.payload == AssignedPayload(true, SuccessMessage)
      && OnlyTouches(s, o.store, id)
      && o.store[id].assignedAgent == Some(body.value["agentId"])
      && o.store[id].status == InProgress
      && o.store[id].assignedAt == Some(now)
      && SameOutside(s[id], o.store[id], AssignFields)
  {
    if NoData(body) then
      Outcome(Response(400, ErrorPayload(NoDataError)), s)
    else if !Complete(body.value) then
      Outcome(Response(400, ErrorPayload(MissingFieldsError)), s)
    else if fault.Some? then
      ServerError(s, Unavailable(fault.value))
    else
      var id := body.value["ticketId"];
      var agent := body.value["agentId"];
      match Update(s, id, t => Assigned(t, agent, now))
      case Failed(e) => ServerError(s, e)
      case Written(s') => Outcome(Response(200, AssignedPayload(true, SuccessMessage)), s')
  }

  /** A request assigning `agent` to `id`. */
  function Request(id: TicketId, agent: AgentId): Option<Json> {
    Some(map["ticketId" := id, "agentId" := agent])
  }

  /** There is no guard: an existing assignee is replaced and a resolved ticket
      goes back to in_progress. */
  lemma AssignOverwrites(s: Store, id: TicketId, agent: AgentId, now: nat)
    requires id != "" && agent != "" && id in s
    requires s[id].status == Resolved && s[id].assignedAgent.Some? && s[id].assignedAgent.value != agent
    ensures var o := Assign(s, Request(id, agent), now, None);
      && o.response.code == 200
      && o.store[id].status == InProgress
      && o.store[id].assignedAgent == Some(agent)
  {
    assert Complete(Request(id, agent).value);
  }

  /** Assigning the same agent twice leaves the store as a single assignment
      at the later time would: the second call only refreshes `assignedAt`. */
  lemma AssignIdempotent(s: Store, id: TicketId, agent: AgentId, now1: nat, now2: nat)
    requires id != "" && agent != ""
    ensures var once := Assign(s, Request(id, agent), now1, None);
      var twice := Assign(once.store, Request(id, agent), now2, None);
      && twice == Assign(s, Request(id, agent), now2, None)
      && (id in s ==>
          && twice.store[id].assignedAgent == once.store[id].assignedAgent
          && twice.store[id].status == once.store[id].status)
  {
    assert Complete(Request(id, agent).value);
    if id in s {
      assert Assigned(Assigned(s[id], agent, now1), agent, now2) == Assigned(s[id], agent, now2);
      assert s[id := Assigned(s[id], agent, now1)][id := Assigned(s[id], agent, now2)]
          == s[id := Assigned(s[id], agent, now2)];
    }
  }
}
