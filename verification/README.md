# Support-ticket lifecycle: a Dafny model

This project models the ticket record of the intelligent-support system and
the effect of every command that writes or reads it. The commands come from
four Cloud Functions (`create_ticket`, `chat_handler`, `agent_assign`,
`get_ticket_status`) and from the agent dashboard (claim, resolve, reply, the
live ticket list, its filters and counts, and which buttons the detail pane
shows). The `tickets` collection is a `map<TicketId, Ticket>`. Each handler is
one atomic step that returns a status code, a payload and the new collection.

Layout, one module per file:

- `wrappers.dfy`: `Option`.
- `tickets.dfy`: the `Ticket` document, with `Status`, `Priority`, `Sender`
  and `ChatEntry`. It also holds a field-by-field view (`Get`, `SameOutside`)
  used to say that a write "changes no other field".
- `store.dfy`: the collection. Firestore `update` fails on a missing document.
- `http.dfy`: request bodies as JSON objects of strings, plus payloads,
  responses and outcomes.
- `responder.dfy`: the keyword responder `generate_simple_response`.
- `create_ticket.dfy`, `chat_handler.dfy`, `agent_assign.dfy`,
  `ticket_status.dfy`: one Cloud Function each.
- `dashboard_list.dfy`: the live query, the stable priority sort, and the
  all/my/unassigned filters and counts.
- `dashboard_actions.dfy`: claim, resolve, reply (including JavaScript
  `trim`), and which actions the detail pane offers.
- `lifecycle.dfy`: all commands as one step function, with these lemmas:
  - the collection invariant every step keeps;
  - the fields no step rewrites;
  - resolved is not a final state.

Environment inputs are explicit parameters:
- the generated uuid;
- clock readings, as `nat`;
- the sentiment service's answer (`None` when the call raised);
- a store failure (`fault`: the first store call raises with that text);
- a dashboard write the backend rejects (`rejected`: permission denied,
  network error), which the dashboard only logs.

Behaviour of the code that the model makes explicit:
- Tickets carry no version counter, and no write is conditional.
- Claim, assign and resolve are unconditional overwrites (`LastClaimWins`,
  `AssignOverwrites`).
- `agent_assign` moves a resolved ticket back to in_progress.
- `chat_handler` still appends to a resolved ticket (`ResolvedIsNotFinal`).
- Resolve works on a ticket nobody claimed.
- Membership in the live list depends on the status alone, so a resolved
  ticket that is claimed or assigned again reappears in it
  (`ClaimReturnsToList`).
- The detail pane keeps the copy of the ticket taken when it was selected, so
  after a claim it still shows the Claim button (`ClaimingPaneIsStale`).
- A dashboard reply writes the pane's copy of the history plus one entry, not
  the stored history plus one entry (`ReplyWritesPaneHistory`).

## Model

| member | source | states |
|---|---|---|
| Tickets.FieldsDetermineTicket | backend/functions/create-ticket/main.py:58-72 | the twelve document fields determine a ticket, so "every field outside W is unchanged" leaves only W free |
| Responder.Lower | backend/functions/chat-handler/main.py:69 | lower-casing keeps the length and folds each character independently |
| Responder.Contains | backend/functions/chat-handler/main.py:71-75 | `w in s` holds iff `w` occurs as a contiguous slice of `s` at some position |
| Responder.ContainsAny | backend/functions/chat-handler/main.py:71-75 | `any(word in s ...)` holds iff some word of the list occurs in `s` |
| Responder.Respond | backend/functions/chat-handler/main.py:68-78 | the reply is always one of the four fixed strings; greeting iff a greeting word occurs; login help iff no greeting word and a login word; thanks iff neither and a thanks word |
| Responder.LowerIdempotent | backend/functions/chat-handler/main.py:69 | lower-casing twice equals lower-casing once |
| Responder.RespondIgnoresCase | backend/functions/chat-handler/main.py:69-78 | messages that lower-case alike get the same reply, and a message gets the same reply as its lower-cased form |
| Responder.GreetingTakesPrecedence | backend/functions/chat-handler/main.py:71-72 | any greeting word decides the reply whatever else the message holds, e.g. "password" |
| Responder.LoginBeforeThanks | backend/functions/chat-handler/main.py:73-74 | without a greeting word, a login word decides the reply even if "thanks" is present |
| Responder.ThanksGroupIsThank | backend/functions/chat-handler/main.py:75 | the thanks group matches iff "thank" occurs; "thanks" adds nothing |
| Responder.SubstringNotWord | backend/functions/chat-handler/main.py:71-74 | matching is by substring: a password message that contains "this" gets the greeting |
| CreateTicket.PriorityFor | backend/functions/create-ticket/main.py:55 | high iff score < -0.3, medium iff -0.3 <= score < 0.3, low iff score >= 0.3 |
| CreateTicket.PriorityMonotone | backend/functions/create-ticket/main.py:55 | a lower score never yields a less urgent priority |
| CreateTicket.FailedAnalysisGivesMedium | backend/functions/create-ticket/main.py:50-55 | when sentiment analysis fails the score is 0.0, so the priority is medium |
| CreateTicket.Create | backend/functions/create-ticket/main.py:27-82 | no body or an empty body gives 400 "No data provided", and a missing or empty userId/subject/description gives 400 "Missing required fields"; neither writes. Otherwise the result is 201 unless the write fails (500, no write). On 201 the new document is stored under its ticketId and is open, unassigned and with an empty history. It copies the request fields and has the priority of its sentiment; when the analysis failed the stored sentiment is 0.0/0.0 and the priority medium. The payload echoes the ticketId, the priority and "open", and no other document changes |
| CreateTicket.NewTicket | backend/functions/create-ticket/main.py:50-72 | the new document is open, unassigned, with an empty history and the request's fields; its priority agrees with its stored sentiment, which is zeros with medium priority when the analysis failed |
| CreateTicket.CreateAddsOne | backend/functions/create-ticket/main.py:57-74 | with a fresh id, creation adds exactly one document and leaves all others as they were |
| ChatHandler.Handle | backend/functions/chat-handler/main.py:23-62 | no or empty body gives 400 "No data provided"; missing message or ticketId gives 400; a store failure gives 500; an unknown ticket gives 404; none of these writes. Success is 200 with the responder's reply; only that ticket is written, and only its chatHistory |
| ChatHandler.WithExchange | backend/functions/chat-handler/main.py:43-60 | the history grows by two, keeps the old one as prefix, then holds the user entry and the bot entry; no other field changes |
| ChatHandler.AppendsUserThenBot | backend/functions/chat-handler/main.py:43-62 | on success the history grows by exactly two and the old history is a prefix. The first new entry is the user's message verbatim; the second is a bot entry whose text is the reply returned to the caller |
| ChatHandler.AbsentHistoryStartsEmpty | backend/functions/chat-handler/main.py:44 | a ticket without chatHistory is treated as having [] and ends with exactly the two new entries |
| AgentAssign.Assigned | backend/functions/agent-assign/main.py:36-40 | the update sets assignedAgent, status = in_progress and assignedAt, and leaves every other field unchanged |
| AgentAssign.Assign | backend/functions/agent-assign/main.py:22-46 | no or empty body gives 400 "No data provided", and a missing ticketId or agentId gives 400; a store failure or a missing document gives 500 with the error text; none of these writes. Success is 200 with success true; only that ticket changes, it gets the agent, in_progress and the timestamp, and no other field changes |
| AgentAssign.AssignOverwrites | backend/functions/agent-assign/main.py:35-40 | assignment has no guard: it replaces another agent and puts a resolved ticket back to in_progress |
| AgentAssign.AssignIdempotent | backend/functions/agent-assign/main.py:35-40 | assigning the same agent twice equals assigning once at the later time, so the assignee and status are the same as after one call |
| TicketStatus.Query | backend/functions/get-ticket-status/main.py:23-49 | the store is never changed. Missing ticketId or userId gives 400 before any lookup, a store failure gives 500, an unknown ticket gives 404, and a different owner gets 403; all errors carry no ticket data. Success is 200 with ticketId, status, priority and createdAt (absent stays null), and the history ([] when absent) |
| TicketStatus.ProjectShowsExactlyVisible | backend/functions/get-ticket-status/main.py:41-47 | two tickets give the same answer iff they agree on status, priority, createdAt and history, an absent history counting as [] |
| TicketStatus.QueryHidesOtherFields | backend/functions/get-ticket-status/main.py:41-47 | changing the assignee, sentiment, subject, description, assignedAt or resolvedAt of a ticket never changes any caller's answer |
| DashboardList.Where | frontend/agent-dashboard/src/App.js:83-87 | the filter keeps exactly the elements satisfying the predicate, each as many times as it occurs, in their original order (a subsequence) |
| DashboardList.WhereKeepsAll | frontend/agent-dashboard/src/App.js:83-87 | when every element passes, the filter returns its input |
| DashboardList.WhereDrops | frontend/agent-dashboard/src/App.js:83-87 | when some element fails, the filter returns fewer elements than its input |
| DashboardList.LiveQuery | frontend/agent-dashboard/src/App.js:34-37 | the query keeps every occurrence of the open and in_progress documents, drops the resolved ones, and keeps snapshot order |
| DashboardList.Insert | frontend/agent-dashboard/src/App.js:45-48 | inserting adds exactly the one element (multiset) |
| DashboardList.InsertKeepsSorted | frontend/agent-dashboard/src/App.js:45-48 | inserting into a list sorted by rank keeps it sorted |
| DashboardList.SortByPriority | frontend/agent-dashboard/src/App.js:45-48 | the sorted list is a permutation of its input and its rank (high 0, medium 1, low 2) never decreases |
| DashboardList.SortIsStable | frontend/agent-dashboard/src/App.js:45-48 | the sort equals the stable order: all high, then medium, then low tickets, each group in input order |
| DashboardList.TicketList | frontend/agent-dashboard/src/App.js:34-50 | the list holds each active document of the snapshot as many times as the snapshot does, and no other, with rank never decreasing |
| DashboardList.TicketListContents | frontend/agent-dashboard/src/App.js:34-50 | for a snapshot of the store, the list holds exactly its open and in_progress tickets, never a resolved one, sorted by priority |
| DashboardList.Filtered | frontend/agent-dashboard/src/App.js:83-87 | the filtered list holds every occurrence of the tickets the filter keeps and nothing else, in list order |
| DashboardList.FilterSelects | frontend/agent-dashboard/src/App.js:83-87 | `all` keeps the list unchanged; `my` keeps every occurrence of the tickets assigned to the uid and nothing else; `unassigned` keeps every occurrence of those with a falsy assignee and nothing else; both are subsequences |
| DashboardList.AllKeepsEverything | frontend/agent-dashboard/src/App.js:86 | the `all` filter returns its input unchanged |
| DashboardList.CountsOf | frontend/agent-dashboard/src/App.js:110-122 | the All count is the list length and the other two never exceed it |
| DashboardList.CountsExtremes | frontend/agent-dashboard/src/App.js:110-122 | the My (Unassigned) count equals the All count iff every ticket is mine (unassigned), and is zero iff none is |
| DashboardList.CountsBounded | frontend/agent-dashboard/src/App.js:110-122 | for a non-empty uid no ticket is both "mine" and "unassigned", so the two counts sum to at most the All count |
| DashboardList.EmptyUidOverlaps | frontend/agent-dashboard/src/App.js:84-85 | with an empty uid a ticket assigned to "" passes both filters |
| DashboardActions.Claim | frontend/agent-dashboard/src/App.js:56-62 | sets assignedAgent to the uid and status to in_progress with no other field changed; a missing ticket or a rejected write leaves the store unchanged |
| DashboardActions.Resolve | frontend/agent-dashboard/src/App.js:69-75 | sets status resolved and resolvedAt, with assignedAgent and every other field unchanged; a missing ticket or a rejected write leaves the store unchanged |
| DashboardActions.ResolvedLeavesList | frontend/agent-dashboard/src/App.js:34-37 | a resolve that goes through removes the ticket from the snapshot taken right after it; later writes can bring it back |
| DashboardActions.ClaimReturnsToList | frontend/agent-dashboard/src/App.js:34-37 | after a claim that goes through, the claimed ticket is in the next snapshot's list whatever its status was, a resolved one included |
| DashboardActions.LastClaimWins | frontend/agent-dashboard/src/App.js:56-62 | a second claim by another agent overwrites the first assignee |
| DashboardActions.TrimStart | frontend/agent-dashboard/src/App.js:229 | drops exactly a whitespace prefix and leaves a result that is empty or starts with a non-whitespace character |
| DashboardActions.TrimEnd | frontend/agent-dashboard/src/App.js:229 | drops exactly a whitespace suffix and leaves a result that is empty or ends with a non-whitespace character |
| DashboardActions.TrimIsSlice | frontend/agent-dashboard/src/App.js:229 | the result is a slice of the input with only whitespace before and after it, and it neither starts nor ends with whitespace |
| DashboardActions.TrimEmptyIffBlank | frontend/agent-dashboard/src/App.js:229 | `!reply.trim()` holds iff every character of the reply is JavaScript whitespace |
| DashboardActions.SendReply | frontend/agent-dashboard/src/App.js:228-242 | a whitespace-only reply, a missing ticket or a rejected write writes nothing. Otherwise only that ticket changes: its history becomes the pane's history ([] when absent) plus one agent entry with the reply verbatim, and no other field changes |
| DashboardActions.ReplyAppendsOne | frontend/agent-dashboard/src/App.js:233-242 | when the pane shows the stored ticket, a non-blank reply grows the history by one agent entry and keeps the old history as prefix |
| DashboardActions.ReplyWritesPaneHistory | frontend/agent-dashboard/src/App.js:239-242 | the stored history after a reply is the pane's history plus the reply, whatever the store held |
| DashboardActions.Offered | frontend/agent-dashboard/src/App.js:251-252 | Claim is offered iff the assignee is falsy; Resolve iff the assignee strictly equals the agent's uid; the reply box iff Resolve is |
| DashboardActions.ClaimExcludesResolve | frontend/agent-dashboard/src/App.js:251-252 | Claim and Resolve are offered together iff the uid is empty and the assignee is the empty string |
| DashboardActions.ClaimSwitchesButtons | frontend/agent-dashboard/src/App.js:251-252 | once the pane shows the stored ticket after a claim that went through, the claiming agent (non-empty uid) is offered exactly Resolve and the reply box, and no agent is offered Claim |
| DashboardActions.ClaimingPaneIsStale | frontend/agent-dashboard/src/App.js:56-62 | the pane that issued a claim keeps its copy from selection time (line 132), so it still offers only Claim while the stored ticket offers the claimer Resolve and the reply box |
| Lifecycle.StepPreservesOk | backend/functions/create-ticket/main.py:58-72 | every command keeps the store invariant. Each ticket is stored under its own id with non-empty creation fields and createdAt and chatHistory present. Its priority matches its sentiment. An open ticket has no assignee and an in_progress one has one. Every bot entry is a canned reply |
| Lifecycle.CreateKeepsOk | backend/functions/create-ticket/main.py:57-74 | creation keeps the store invariant |
| Lifecycle.ChatKeepsOk | backend/functions/chat-handler/main.py:43-60 | the chat handler keeps the store invariant, in particular every bot entry is a canned reply |
| Lifecycle.AssignKeepsOk | backend/functions/agent-assign/main.py:35-40 | assignment keeps the store invariant |
| Lifecycle.ReplyKeepsOk | frontend/agent-dashboard/src/App.js:228-242 | a dashboard reply from a well-formed pane keeps the store invariant |
| Lifecycle.StepKeepsCreationFields | backend/functions/create-ticket/main.py:58-69 | no command deletes a ticket, and none except a create reusing the id rewrites ticketId, userId, subject, description, priority, sentiment or createdAt |
| Lifecycle.ResolvedIsNotFinal | backend/functions/agent-assign/main.py:35-40 | a resolved ticket goes back to in_progress when assigned, and the chat handler still appends two entries to it |

## Left out

- CORS preflight (`OPTIONS` returns 204), response headers and `jsonify`: HTTP plumbing. Responses are a status code and a payload.
- Firebase app and auth setup, agent sign-in and sign-out, and the `onSnapshot` subscription: external SDK calls. The list is modelled as a function of one snapshot of the collection, given in the order the query returns it.
- The Google Natural Language call: a foreign service. Its answer is a parameter, and the sentiment numbers are `real`, not IEEE floats.
- `uuid.uuid4()`, `datetime.now()`, `new Date()` and `SERVER_TIMESTAMP`: ids are parameters and timestamps are opaque `nat` parameters. `isoformat()` of createdAt is left out, so the timestamp is returned as is.
- Concurrency: the read-modify-write windows in the chat handler and the dashboard reply, and racing claims. Every handler is one atomic step.
- JSON that is not an object of strings: field values that are numbers, booleans, nested objects or null, and request bodies that are not objects. A non-empty array or string body is truthy, so `.get` raises and the handler answers 500 (backend/functions/create-ticket/main.py:32, backend/functions/chat-handler/main.py:29, backend/functions/agent-assign/main.py:28); a body of `0`, `false`, `[]` or `""` is falsy and answers 400 like a missing body. The model's body is an optional map of strings, so it covers only object bodies and the missing body.
- Responder.Lower: folds only ASCII capitals. Python's `str.lower()` also folds non-ASCII letters; Dafny has no Unicode case tables.
- DocStore.ErrorText: the exact text of the client library's missing-document exception is not modelled. It is a fixed prefix followed by the id.
- A `chatHistory` field that is present but null, which would make the chat handler raise: documents hold either a list or no field.
- Presentation: TicketCard colours, id and description truncation, the sentiment display, alerts, and the clearing of the selection and the reply box after a write.
- The customer app (ticket list, chat pane, creation form, view routing): React state and fetch wrappers around the functions modelled here.
