/** The whole collection as a state machine: every handler and dashboard
    write is one atomic step on the store. States the invariant the writers
    jointly keep, and which fields no step ever rewrites. */
module Lifecycle {
  import opened Wrappers
  import opened Tickets
  import opened DocStore
  import opened Http
  import opened Responder
  import CreateTicket
  import ChatHandler
  import AgentAssign
  import TicketStatus
  import opened DashboardList
  import DashboardActions

  /** One request to a Cloud Function or one dashboard write, with the
      values its environment supplies (ids, clock readings, service answers,
      store failures). */
  datatype Command =
    | Create(body: Option<Json>, analysis: Option<Sentiment>, freshId: TicketId, now: nat, fault: Option<string>)
    | Chat(body: Option<Json>, userAt: nat, botAt: nat, fault: Option<string>)
    | Assign(body: Option<Json>, now: nat, fault: Option<string>)
    | Status(args: Json, fault: Option<string>)
    | Claim(id: TicketId, uid: AgentId, rejected: bool)
    | Resolve(id: TicketId, now: nat, rejected: bool)
    | Reply(view: Doc, reply: string, now: nat, rejected: bool)

  /** The collection after one command. */
  function Apply(s: Store, c: Command): Store {
    match c
    case Create(body, analysis, freshId, now, fault) => CreateTicket.Create(s, body, analysis, freshId, now, fault).store
    case Chat(body, userAt, botAt, fault) => ChatHandler.Handle(s, body, userAt, botAt, fault).store
    case Assign(body, now, fault) => AgentAssign.Assign(s, body, now, fault).store
    case Status(args, fault) => TicketStatus.Query(s, args, fault).store
    case Claim(id, uid, rejected) => DashboardActions.Claim(s, id, uid, rejected)
    case Resolve(id, now, rejected) => DashboardActions.Resolve(s, id, now, rejected)
    case Reply(view, reply, now, rejected) => DashboardActions.SendReply(s, view, reply, now, rejected)
  }

  /** Every bot entry carries one of the responder's canned replies. */
  predicate BotEntriesCanned(h: seq<ChatEntry>) {
    forall i :: 0 <= i < |h| && h[i].sender == Bot ==>
      h[i].message in {GreetingReply, LoginReply, ThanksReply, FallbackReply}
  }

  /** What holds of every ticket the writers produce: it is stored under its
      own id, its creation fields are filled in, its priority matches its
      sentiment, an open ticket has no assignee and an in-progress one has
      one, and the bot only ever said canned things. */
  predicate TicketOk(id: TicketId, t: Ticket) {
    && t.ticketId == id
    && t.userId != "" && t.subject != "" && t.description != ""
    && t.createdAt.Some? && t.chatHistory.Some?
    && t.priority == CreateTicket.PriorityFor(t.sentiment.score)
    && (t.status == Open ==> t.assignedAgent == None)
    && (t.status == InProgress ==> t.assignedAgent.Some?)
    && BotEntriesCanned(History(t))
  }

  ghost predicate StoreOk(s: Store) {
    forall id :: id in s ==> TicketOk(id, s[id])
  }

  /** What the environment must guarantee of a command: the pane answering a
      reply shows a ticket as some earlier well-formed state held it. */
  predicate CommandOk(c: Command) {
    c.Reply? ==> TicketOk(c.view.id, c.view.data)
  }

  lemma {:induction false} AppendKeepsCanned(h: seq<ChatEntry>, extra: seq<ChatEntry>)
    requires BotEntriesCanned(h) && BotEntriesCanned(extra)
    ensures BotEntriesCanned(h + extra)
  {
    var r := h + extra;
    forall i | 0 <= i < |r| && r[i].sender == Bot
      ensures r[i].message in {GreetingReply, LoginReply, ThanksReply, FallbackReply}
    {
      if i < |h| { assert r[i] == h[i]; } else { assert r[i] == extra[i - |h|]; }
    }
  }

  lemma {:induction false} CreateKeepsOk(s: Store, body: Option<Json>, analysis: Option<Sentiment>,
                                          freshId: TicketId, now: nat, fault: Option<string>)
    requires StoreOk(s)
    ensures StoreOk(CreateTicket.Create(s, body, analysis, freshId, now, fault).store)
  {
    var o := CreateTicket.Create(s, body, analysis, freshId, now, fault);
    if o.response.code == 201 {
      assert TicketOk(freshId, o.store[freshId]);
    }
  }

  lemma {:induction false} ChatKeepsOk(s: Store, body: Option<Json>, userAt: nat, botAt: nat, fault: Option<string>)
    requires StoreOk(s)
    ensures StoreOk(ChatHandler.Handle(s, body, userAt, botAt, fault).store)
  {
    var o := ChatHandler.Handle(s, body, userAt, botAt, fault);
    if o.response.code == 200 {
      var id := body.value["ticketId"];
      var m := body.value["message"];
      var extra := [ChatEntry(User, m, userAt), ChatEntry(Bot, Respond(m), botAt)];
      AppendKeepsCanned(History(s[id]), extra);
      assert o.store == s[id := ChatHandler.WithExchange(s[id], m, Respond(m), userAt, botAt)];
    }
  }

  lemma {:induction false} AssignKeepsOk(s: Store, body: Option<Json>, now: nat, fault: Option<string>)
    requires StoreOk(s)
    ensures StoreOk(AgentAssign.Assign(s, body, now, fault).store)
  {
    var o := AgentAssign.Assign(s, body, now, fault);
    if o.response.code == 200 {
      var id := body.value["ticketId"];
      assert Get(s[id], ChatHistoryField) == Get(o.store[id], ChatHistoryField);
      assert Get(s[id], PriorityField) == Get(o.store[id], PriorityField);
      assert Get(s[id], SentimentField) == Get(o.store[id], SentimentField);
    }
  }

  lemma {:induction false} ReplyKeepsOk(s: Store, view: Doc, reply: string, now: nat, rejected: bool)
    requires StoreOk(s) && TicketOk(view.id, view.data)
    ensures StoreOk(DashboardActions.SendReply(s, view, reply, now, rejected))
  {
    if DashboardActions.Trim(reply) != [] && view.id in s && !rejected {
      AppendKeepsCanned(History(view.data), [ChatEntry(Agent, reply, now)]);
    }
  }

  /** Every step keeps the collection well formed. */
  lemma {:induction false} StepPreservesOk(s: Store, c: Command)
    requires StoreOk(s) && CommandOk(c)
    ensures StoreOk(Apply(s, c))
  {
    match c
    case Create(body, analysis, freshId, now, fault) => CreateKeepsOk(s, body, analysis, freshId, now, fault);
    case Chat(body, userAt, botAt, fault) => ChatKeepsOk(s, body, userAt, botAt, fault);
    case Assign(body, now, fault) => AssignKeepsOk(s, body, now, fault);
    case Status(args, fault) =>
    case Claim(id, uid, rejected) =>
    case Resolve(id, now, rejected) =>
    case Reply(view, reply, now, rejected) => ReplyKeepsOk(s, view, reply, now, rejected);
  }

  /** Fields fixed at creation. */
  const CreationFields: set<Field> :=
    {TicketIdField, UserIdField, SubjectField, DescriptionField,
     PriorityField, SentimentField, CreatedAtField}

  /** `t'` keeps the creation fields of `t`. */
  predicate KeepsCreation(t: Ticket, t': Ticket) {
    forall f :: f in CreationFields ==> Get(t', f) == Get(t, f)
  }

  /** A write confined to fields outside `CreationFields` keeps them. */
  lemma {:induction false} FrameKeepsCreation(t: Ticket, t': Ticket, written: set<Field>)
    requires SameOutside(t, t', written) && written !! CreationFields
    ensures KeepsCreation(t, t')
  {
  }

  lemma {:induction false} CreateKeepsCreation(s: Store, body: Option<Json>, analysis: Option<Sentiment>,
                                                freshId: TicketId, now: nat, fault: Option<string>, id: TicketId)
    requires id in s && freshId != id
    ensures var s' := CreateTicket.Create(s, body, analysis, freshId, now, fault).store;
      id in s' && s'[id] == s[id]
  {
  }

  lemma {:induction false} ChatKeepsCreation(s: Store, body: Option<Json>, userAt: nat, botAt: nat,
                                              fault: Option<string>, id: TicketId)
    requires id in s
    ensures var s' := ChatHandler.Handle(s, body, userAt, botAt, fault).store;
      id in s' && KeepsCreation(s[id], s'[id])
  {
    var s' := ChatHandler.Handle(s, body, userAt, botAt, fault).store;
    if s' != s && body.value["ticketId"] == id {
      FrameKeepsCreation(s[id], s'[id], {ChatHistoryField});
    }
  }

  lemma {:induction false} AssignKeepsCreation(s: Store, body: Option<Json>, now: nat, fault: Option<string>, id: TicketId)
    requires id in s
    ensures var s' := AgentAssign.Assign(s, body, now, fault).store;
      id in s' && KeepsCreation(s[id], s'[id])
  {
    var s' := AgentAssign.Assign(s, body, now, fault).store;
    if s' != s && body.value["ticketId"] == id {
      FrameKeepsCreation(s[id], s'[id], AgentAssign.AssignFields);
    }
  }

  lemma {:induction false} ClaimKeepsCreation(s: Store, cid: TicketId, uid: AgentId, rejected: bool, id: TicketId)
    requires id in s
    ensures var s' := DashboardActions.Claim(s, cid, uid, rejected); id in s' && KeepsCreation(s[id], s'[id])
  {
    if cid == id && !rejected {
      FrameKeepsCreation(s[id], DashboardActions.Claim(s, cid, uid, rejected)[id], DashboardActions.ClaimFields);
    }
  }

  lemma {:induction false} ResolveKeepsCreation(s: Store, rid: TicketId, now: nat, rejected: bool, id: TicketId)
    requires id in s
    ensures var s' := DashboardActions.Resolve(s, rid, now, rejected); id in s' && KeepsCreation(s[id], s'[id])
  {
    if rid == id && !rejected {
      FrameKeepsCreation(s[id], DashboardActions.Resolve(s, rid, now, rejected)[id], DashboardActions.ResolveFields);
    }
  }

  lemma {:induction false} ReplyKeepsCreation(s: Store, view: Doc, reply: string, now: nat, rejected: bool, id: TicketId)
    requires id in s
    ensures var s' := DashboardActions.SendReply(s, view, reply, now, rejected); id in s' && KeepsCreation(s[id], s'[id])
  {
    var s' := DashboardActions.SendReply(s, view, reply, now, rejected);
    if view.id == id && DashboardActions.Trim(reply) != [] && !rejected {
      FrameKeepsCreation(s[id], s'[id], {ChatHistoryField});
    }
  }

  /** No step deletes a ticket, and no step other than a create that reuses
      an existing id rewrites the fields fixed at creation. */
  lemma {:induction false} StepKeepsCreationFields(s: Store, c: Command, id: TicketId)
    requires id in s
    requires c.Create? ==> c.freshId != id
    ensures id in Apply(s, c)
    ensures KeepsCreation(s[id], Apply(s, c)[id])
  {
    match c
    case Create(body, analysis, freshId, now, fault) => CreateKeepsCreation(s, body, analysis, freshId, now, fault, id);
    case Chat(body, userAt, botAt, fault) => ChatKeepsCreation(s, body, userAt, botAt, fault, id);
    case Assign(body, now, fault) => AssignKeepsCreation(s, body, now, fault, id);
    case Status(args, fault) =>
    case Claim(cid, uid, rejected) => ClaimKeepsCreation(s, cid, uid, rejected, id);
    case Resolve(rid, now, rejected) => ResolveKeepsCreation(s, rid, now, rejected, id);
    case Reply(view, reply, now, rejected) => ReplyKeepsCreation(s, view, reply, now, rejected, id);
  }

  /** Unlike a one-way lifecycle, a resolved ticket can leave that state: an
      assignment puts it back in progress, and the chat handler still appends
      to it. */
  lemma ResolvedIsNotFinal(s: Store, id: TicketId, agent: AgentId, body: Option<Json>, now: nat)
    requires id in s && s[id].status == Resolved && id != "" && agent != ""
    requires !NoData(body) && ChatHandler.Complete(body.value) && body.value["ticketId"] == id
    ensures Apply(s, Assign(AgentAssign.Request(id, agent), now, None))[id].status == InProgress
    ensures Apply(s, Chat(body, now, now, None))[id].status == Resolved
    ensures |History(Apply(s, Chat(body, now, now, None))[id])| == |History(s[id])| + 2
  {
    assert AgentAssign.Complete(AgentAssign.Request(id, agent).value);
    ChatHandler.AppendsUserThenBot(s, body, now, now);
  }
}
