/** The ticket document kept in the `tickets` collection, with its
    enumerations, its conversation entries, and a field-by-field view used
    to state which fields a write leaves alone. */
module Tickets {
  import opened Wrappers

  type TicketId = string
  type AgentId = string

  /** The three status strings the handlers write: 'open', 'in_progress', 'resolved'. */
  datatype Status = Open | InProgress | Resolved

  /** The three priority strings written by ticket creation. */
  datatype Priority = High | Medium | Low

  /** The `sender` strings of a chat entry: 'user', 'agent', 'bot'. */
  datatype Sender = User | Agent | Bot

  /** One element of `chatHistory`: `{sender, message, timestamp}`. */
  datatype ChatEntry = ChatEntry(sender: Sender, message: string, timestamp: nat)

  /** The `sentiment` map stored on a ticket. Both numbers are opaque to the
      core except that the score selects the priority at creation. */
  datatype Sentiment = Sentiment(score: real, magnitude: real)

  /** A ticket document. Optional fields are those a document may lack:
      `createdAt`, `assignedAt` and `resolvedAt` are written by different
      handlers, `assignedAgent` is null until someone claims the ticket, and
      readers default a missing `chatHistory` to the empty list. */
  datatype Ticket = Ticket(
    ticketId: TicketId,
    userId: string,
    subject: string,
    description: string,
    status: Status,
    priority: Priority,
    sentiment: Sentiment,
    createdAt: Option<nat>,
    assignedAgent: Option<AgentId>,
    assignedAt: Option<nat>,
    resolvedAt: Option<nat>,
    chatHistory: Option<seq<ChatEntry>>)

  /** The history as readers see it: an absent field reads as `[]`. */
  function History(t: Ticket): seq<ChatEntry> {
    t.chatHistory.GetOr([])
  }

  /** The dashboard's `priorityOrder`: high = 0, medium = 1, low = 2; a
      smaller rank is more urgent. */
  function Rank(p: Priority): nat {
    match p
    case High => 0
    case Medium => 1
    case Low => 2
  }

  /** JavaScript truthiness of `ticket.assignedAgent`: null and "" are both falsy. */
  predicate HasAssignee(t: Ticket) {
    t.assignedAgent.Some? && t.assignedAgent.value != ""
  }

  // ---------------------------------------------------------------------
  // Field-wise view of a ticket, used to state "no other field changes".

  datatype Field =
    | TicketIdField | UserIdField | SubjectField | DescriptionField
    | StatusField | PriorityField | SentimentField | CreatedAtField
    | AssignedAgentField | AssignedAtField | ResolvedAtField | ChatHistoryField

  datatype FieldValue =
    | TextValue(text: string)
    | StatusValue(status: Status)
    | PriorityValue(priority: Priority)
    | SentimentValue(sentiment: Sentiment)
    | TimeValue(time: Option<nat>)
    | AgentValue(agent: Option<AgentId>)
    | HistoryValue(history: Option<seq<ChatEntry>>)

  /** The value a document holds under field `f`. */
  function Get(t: Ticket, f: Field): FieldValue {
    match f
    case TicketIdField => TextValue(t.ticketId)
    case UserIdField => TextValue(t.userId)
    case SubjectField => TextValue(t.subject)
    case DescriptionField => TextValue(t.description)
    case StatusField => StatusValue(t.status)
    case PriorityField => PriorityValue(t.priority)
    case SentimentField => SentimentValue(t.sentiment)
    case CreatedAtField => TimeValue(t.createdAt)
    case AssignedAgentField => AgentValue(t.assignedAgent)
    case AssignedAtField => TimeValue(t.assignedAt)
    case ResolvedAtField => TimeValue(t.resolvedAt)
    case ChatHistoryField => HistoryValue(t.chatHistory)
  }

  /** `u` agrees with `t` on every field outside `written`. */
  predicate SameOutside(t: Ticket, u: Ticket, written: set<Field>) {
    forall f :: f !in written ==> Get(t, f) == Get(u, f)
  }

  /** The field view is complete: two documents that agree on every field
      are the same document, so `SameOutside` leaves nothing unconstrained. */
  lemma FieldsDetermineTicket(t: Ticket, u: Ticket)
    requires SameOutside(t, u, {})
    ensures t == u
  {
    assert Get(t, TicketIdField) == Get(u, TicketIdField);
    assert Get(t, UserIdField) == Get(u, UserIdField);
    assert Get(t, SubjectField) == Get(u, SubjectField);
    assert Get(t, DescriptionField) == Get(u, DescriptionField);
    assert Get(t, StatusField) == Get(u, StatusField);
    assert Get(t, PriorityField) == Get(u, PriorityField);
    assert Get(t, SentimentField) == Get(u, SentimentField);
    assert Get(t, CreatedAtField) == Get(u, CreatedAtField);
    assert Get(t, AssignedAgentField) == Get(u, AssignedAgentField);
    assert Get(t, AssignedAtField) == Get(u, AssignedAtField);
    assert Get(t, ResolvedAtField) == Get(u, ResolvedAtField);
    assert Get(t, ChatHistoryField) == Get(u, ChatHistoryField);
  }
}
