/** The `create_ticket` Cloud Function: validates the request, maps the
    sentiment score of the description to a priority, and writes a fresh open
    ticket. */
module CreateTicket {
  import opened Wrappers
  import opened Tickets
  import opened DocStore
  import opened Http

  const NoDataError := "No data provided"
  const MissingFieldsError := "Missing required fields"

  /** The sentiment recorded when the language service call fails. */
  const FallbackSentiment := Sentiment(0.0, 0.0)

  /** Priority thresholds on the sentiment score: below -0.3 is high, below
      0.3 is medium, anything else is low. */
  function PriorityFor(score: real): (p: Priority)
    ensures p == High <==> score < -0.3
    ensures p == Medium <==> -0.3 <= score < 0.3
    ensures p == Low <==> 0.3 <= score
  {
    if score < -0.3 then High else if score < 0.3 then Medium else Low
  }

  /** A more negative score never gives a less urgent priority. */
  lemma PriorityMonotone(a: real, b: real)
    requires a <= b
    ensures Rank(PriorityFor(a)) <= Rank(PriorityFor(b))
  {
  }

  /** The sentiment actually used: the service's answer, or zeros when the call failed. */
  function SentimentUsed(analysis: Option<Sentiment>): Sentiment {
    analysis.GetOr(FallbackSentiment)
  }

  /** When sentiment analysis fails the ticket is created with medium priority. */
  lemma FailedAnalysisGivesMedium()
    ensures PriorityFor(SentimentUsed(None).score) == Medium
  {
  }

  /** The request carries all three required fields, each non-empty. */
  predicate Complete(j: Json) {
    Supplied(j, "userId") && Supplied(j, "subject") && Supplied(j, "description")
  }

  /** The document written for a valid request: open, unassigned, with an
      empty history, the request's fields, and a priority that agrees with
      the stored sentiment (zeros and medium when the analysis failed). */
  function NewTicket(id: TicketId, j: Json, analysis: Option<Sentiment>, now: nat): (t: Ticket)
    requires Complete(j)
    ensures t.ticketId == id && t.createdAt == Some(now)
    ensures t.userId == j["userId"] && t.subject == j["subject"] && t.description == j["description"]
    ensures t.status == Open && !HasAssignee(t) && History(t) == [] && t.chatHistory.Some?
    ensures t.assignedAt == None && t.resolvedAt == None
    ensures t.priority == PriorityFor(t.sentiment.score)
    ensures analysis.Some? ==> t.sentiment == analysis.value
    ensures analysis.None? ==> t.sentiment == FallbackSentiment && t.priority == Medium
  {
    var sentiment := SentimentUsed(analysis);
    Ticket(id, j["userId"], j["subject"], j["description"], Open,
           PriorityFor(sentiment.score), sentiment, Some(now),
           None, None, None, Some([]))
  }

  /** One call of `create_ticket`. `freshId` is the generated uuid, `now` the
      creation time, `analysis` the language service's answer (`None` when the
      call raised), and `fault` a failure of the document write. */
  function Create(s: Store, body: Option<Json>, analysis: Option<Sentiment>,
                  freshId: TicketId, now: nat, fault: Option<string>): (o: Outcome)
    ensures NoData(body) ==> o == Outcome(Response(400, ErrorPayload(NoDataError)), s)
    ensures !NoData(body) && !Complete(body.value) ==>
      o == Outcome(Response(400, ErrorPayload(MissingFieldsError)), s)
    ensures o.response.code == 201 <==> !NoData(body) && Complete(body.value) && fault.None?
    ensures o.response.code != 201 ==> o.store == s
    ensures !NoData(body) && Complete(body.value) && fault.Some? ==>
      o.response == Response(500, ErrorPayload(fault.value))
    ensures o.response.code == 201 ==>
      && o.store.Keys == s.Keys + {freshId}
      && (forall k :: k in s && k != freshId ==> o.store[k] == s[k])
      && var t := o.store[freshId];
         && t.ticketId == freshId
         && t.status == Open && t.assignedAgent == None && t.chatHistory == Some([])
         && t.userId == body.value["userId"]
         && t.subject == body.value["subject"]
         && t.description == body.value["description"]
         && t.priority == PriorityFor(t.sentiment.score)
         && (analysis.Some? ==> t.sentiment == analysis.value)
         && (analysis.None? ==> t.sentiment == FallbackSentiment && t.priority == Medium)
         && t.createdAt == Some(now)
         && t.assignedAt == None && t.resolvedAt == None
         && o.response.payload == CreatedPayload(freshId, t.priority, Open)
  {
    if NoData(body) then
      Outcome(Response(400, ErrorPayload(NoDataError)), s)
    else if !Complete(body.value) then
      Outcome(Response(400, ErrorPayload(MissingFieldsError)), s)
    else if fault.Some? then
      ServerError(s, Unavailable(fault.value))
    else
      var t := NewTicket(freshId, body.value, analysis, now);
      Outcome(Response(201, CreatedPayload(freshId, t.priority, Open)), s[freshId := t])
  }

  /** With a fresh id, creation adds exactly one document and touches no other. */
  lemma CreateAddsOne(s: Store, body: Option<Json>, analysis: Option<Sentiment>,
                      freshId: TicketId, now: nat)
    requires freshId !in s
    requires !NoData(body) && Complete(body.value)
    ensures var o := Create(s, body, analysis, freshId, now, None);
      && |o.store| == |s| + 1
      && forall k :: k in s ==> k in o.store && o.store[k] == s[k]
  {
    var o := Create(s, body, analysis, freshId, now, None);
    assert o.store.Keys == s.Keys + {freshId};
    assert |o.store.Keys| == |s.Keys| + 1;
  }
}
