/** The agent dashboard's writes (claim, resolve, reply) and the predicates
    that decide which of them the detail pane offers. Each write is one
    `updateDoc` call. When the call is rejected (the document is gone, the
    security rules deny it, the network fails) the error is only logged, so
    the collection is left as it was; `rejected` stands for every such
    failure other than a missing document. */
module DashboardActions {
  import opened Wrappers
  import opened Tickets
  import opened DocStore
  import opened DashboardList

  /** `updateDoc(ref, patch)` as the dashboard uses it, inside a `try` whose
      `catch` only logs. */
  function UpdateOrKeep(s: Store, id: TicketId, patch: Ticket -> Ticket, rejected: bool): (s': Store)
    ensures rejected || id !in s ==> s' == s
    ensures !rejected && id in s ==> s' == s[id := patch(s[id])]
  {
    if rejected then s else
    match Update(s, id, patch)
    case Written(s') => s'
    case Failed(_) => s
  }

  // ---------------------------------------------------------------------
  // Claim and resolve

  const ClaimFields: set<Field> := {AssignedAgentField, StatusField}
  const ResolveFields: set<Field> := {StatusField, ResolvedAtField}

  /** `handleClaimTicket`: the agent's uid becomes the assignee and the ticket
      goes to in_progress, whatever it held before. */
  function Claim(s: Store, id: TicketId, uid: AgentId, rejected: bool): (s': Store)
    ensures id !in s || rejected ==> s' == s
    ensures OnlyTouches(s, s', id)
    ensures id in s && !rejected ==>
      && s'[id].assignedAgent == Some(uid)
      && s'[id].status == InProgress
      && SameOutside(s[id], s'[id], ClaimFields)
  {
    UpdateOrKeep(s, id, (t: Ticket) => t.(assignedAgent := Some(uid), status := InProgress), rejected)
  }

  /** `handleResolveTicket`: status becomes resolved and `resolvedAt` the
      client's clock reading; the assignee is kept. */
  function Resolve(s: Store, id: TicketId, now: nat, rejected: bool): (s': Store)
    ensures id !in s || rejected ==> s' == s
    ensures OnlyTouches(s, s', id)
    ensures id in s && !rejected ==>
      && s'[id].status == Resolved
      && s'[id].resolvedAt == Some(now)
      && SameOutside(s[id], s'[id], ResolveFields)
  {
    UpdateOrKeep(s, id, (t: Ticket) => t.(status := Resolved, resolvedAt := Some(now)), rejected)
  }

  /** A resolve that goes through drops the ticket from the snapshot taken
      right after it. Later writes can bring it back (`ClaimReturnsToList`,
      and `agent_assign` reopens it too). */
  lemma ResolvedLeavesList(s: Store, id: TicketId, now: nat, docs: seq<Doc>)
    requires Snapshot(Resolve(s, id, now, false), docs)
    ensures forall d :: d in TicketList(docs) ==> d.id != id || id !in s
  {
    TicketListContents(Resolve(s, id, now, false), docs);
  }

  /** A claim that goes through puts the ticket in the list of the next
      snapshot, whatever its status was, a resolved ticket included. */
  lemma ClaimReturnsToList(s: Store, id: TicketId, uid: AgentId, docs: seq<Doc>)
    requires id in s
    requires Snapshot(Claim(s, id, uid, false), docs)
    ensures Doc(id, Claim(s, id, uid, false)[id]) in TicketList(docs)
  {
    TicketListContents(Claim(s, id, uid, false), docs);
  }

  /** A later claim overwrites an earlier one: there is no check that the
      ticket is still unassigned. */
  lemma LastClaimWins(s: Store, id: TicketId, a: AgentId, b: AgentId)
    requires id in s
    ensures Claim(Claim(s, id, a, false), id, b, false)[id].assignedAgent == Some(b)
  {
  }

  // ---------------------------------------------------------------------
  // Reply

  /** Code points removed by `String.prototype.trim`: the ECMAScript
      WhiteSpace and LineTerminator characters. */
  predicate IsJsWhitespace(c: char) {
    var n := c as int;
    || 0x09 <= n <= 0x0D                                  // tab, line feed, vertical tab, form feed, carriage return
    || n == 0x20 || n == 0xA0 || n == 0x1680              // space, no-break space, ogham space mark
    || 0x2000 <= n <= 0x200A                              // en quad .. hair space
    || n == 0x2028 || n == 0x2029                         // line and paragraph separators
    || n == 0x202F || n == 0x205F || n == 0x3000          // narrow no-break, medium mathematical, ideographic space
    || n == 0xFEFF                                        // byte order mark
  }

  /** Drops leading whitespace. */
  function TrimStart(s: string): (r: string)
    ensures |r| <= |s| && r == s[|s| - |r|..]
    ensures r == [] || !IsJsWhitespace(r[0])
    ensures forall i :: 0 <= i < |s| - |r| ==> IsJsWhitespace(s[i])
  {
    if s == [] || !IsJsWhitespace(s[0]) then s else TrimStart(s[1..])
  }

  /** Drops trailing whitespace. */
  function TrimEnd(s: string): (r: string)
    ensures |r| <= |s| && r == s[..|r|]
    ensures r == [] || !IsJsWhitespace(r[|r| - 1])
    ensures forall i :: |r| <= i < |s| ==> IsJsWhitespace(s[i])
  {
    if s == [] || !IsJsWhitespace(s[|s| - 1]) then s else TrimEnd(s[..|s| - 1])
  }

  /** `s.trim()`. */
  function Trim(s: string): string {
    TrimEnd(TrimStart(s))
  }

  /** `s.trim()` is the slice of `s` left once every leading and trailing
      whitespace character is dropped: only whitespace lies outside it, and
      it neither starts nor ends with whitespace. */
  lemma TrimIsSlice(s: string)
    ensures exists i, j ::
              && 0 <= i <= j <= |s| && Trim(s) == s[i..j]
              && (forall k :: 0 <= k < i ==> IsJsWhitespace(s[k]))
              && (forall k :: j <= k < |s| ==> IsJsWhitespace(s[k]))
    ensures Trim(s) == [] || (!IsJsWhitespace(Trim(s)[0]) && !IsJsWhitespace(Trim(s)[|Trim(s)| - 1]))
  {
    var u := TrimStart(s);
    var i := |s| - |u|;
    assert Trim(s) == s[i..i + |Trim(s)|];
  }

  /** `!reply.trim()` holds exactly when every character is whitespace
      (including the empty reply). */
  lemma TrimEmptyIffBlank(s: string)
    ensures Trim(s) == [] <==> forall i :: 0 <= i < |s| ==> IsJsWhitespace(s[i])
  {
    var u := TrimStart(s);
    if Trim(s) == [] {
      assert u == [];
    }
  }

  /** `TicketDetails.handleSendReply` for the ticket `view` as the pane shows
      it: nothing is written for a blank reply; otherwise the history the
      pane holds (or `[]`) plus one agent entry with the reply text verbatim
      replaces the stored history. */
  function SendReply(s: Store, view: Doc, reply: string, now: nat, rejected: bool): (s': Store)
    ensures Trim(reply) == [] ==> s' == s
    ensures view.id !in s || rejected ==> s' == s
    ensures OnlyTouches(s, s', view.id)
    ensures Trim(reply) != [] && view.id in s && !rejected ==>
      && s'[view.id].chatHistory == Some(History(view.data) + [ChatEntry(Agent, reply, now)])
      && SameOutside(s[view.id], s'[view.id], {ChatHistoryField})
  {
    if Trim(reply) == [] then s
    else
      var entry := ChatEntry(Agent, reply, now);
      UpdateOrKeep(s, view.id, (t: Ticket) => t.(chatHistory := Some(History(view.data) + [entry])), rejected)
  }

  /** When the pane shows the stored ticket, a non-blank reply grows the
      history by exactly one agent entry and keeps every earlier entry. */
  lemma ReplyAppendsOne(s: Store, view: Doc, reply: string, now: nat)
    requires view.id in s && s[view.id] == view.data
    requires exists i :: 0 <= i < |reply| && !IsJsWhitespace(reply[i])
    ensures var before := History(s[view.id]);
      var after := History(SendReply(s, view, reply, now, false)[view.id]);
      && |after| == |before| + 1
      && after[..|before|] == before
      && after[|before|] == ChatEntry(Agent, reply, now)
  {
    TrimEmptyIffBlank(reply);
  }

  /** The reply is written from the pane's copy of the history, not the
      stored one: whatever the store holds for that ticket, the stored history
      afterwards is the pane's history plus the reply. */
  lemma ReplyWritesPaneHistory(s: Store, view: Doc, reply: string, now: nat)
    requires view.id in s && Trim(reply) != []
    ensures History(SendReply(s, view, reply, now, false)[view.id]) == History(view.data) + [ChatEntry(Agent, reply, now)]
  {
  }

  // ---------------------------------------------------------------------
  // Which actions the detail pane offers

  datatype Action = ClaimButton | ResolveButton | ReplyBox

  /** `canClaim` shows the Claim button; `isAssignedToMe` shows Resolve and
      the reply box. */
  function Offered(t: Ticket, uid: AgentId): (acts: set<Action>)
    ensures ClaimButton in acts <==> !HasAssignee(t)
    ensures ResolveButton in acts <==> t.assignedAgent == Some(uid)
    ensures ReplyBox in acts <==> ResolveButton in acts
  {
    (if !HasAssignee(t) then {ClaimButton} else {})
    + (if t.assignedAgent == Some(uid) then {ResolveButton, ReplyBox} else {})
  }

  /** Claim and Resolve are offered together only in the corner case of an
      empty uid on a ticket whose assignee is the empty string: it is falsy
      (so claimable) and strictly equal to the uid (so "mine"). */
  lemma ClaimExcludesResolve(t: Ticket, uid: AgentId)
    ensures ClaimButton in Offered(t, uid) && ResolveButton in Offered(t, uid)
      <==> uid == "" && t.assignedAgent == Some("")
  {
  }

  /** Once the pane shows the stored ticket after a claim that went through,
      the claiming agent (non-empty uid) is offered exactly Resolve and the
      reply box, and no agent is offered Claim. */
  lemma ClaimSwitchesButtons(s: Store, id: TicketId, uid: AgentId, other: AgentId)
    requires id in s && uid != ""
    ensures Offered(Claim(s, id, uid, false)[id], uid) == {ResolveButton, ReplyBox}
    ensures ClaimButton !in Offered(Claim(s, id, uid, false)[id], other)
  {
  }

  /** The pane keeps the copy of the ticket taken when it was selected, and a
      claim does not refresh it: the pane that issued the claim still offers
      Claim and no Resolve, while the stored ticket is already the agent's. */
  lemma ClaimingPaneIsStale(s: Store, view: Doc, uid: AgentId)
    requires view.id in s && s[view.id] == view.data
    requires !HasAssignee(view.data) && uid != ""
    ensures Offered(view.data, uid) == {ClaimButton}
    ensures Offered(Claim(s, view.id, uid, false)[view.id], uid) == {ResolveButton, ReplyBox}
  {
  }
}
