/** The agent dashboard's ticket list: the live query over the collection,
    the priority sort, and the all / my / unassigned filters with their
    counts. */
module DashboardList {
  import opened Wrappers
  import opened Tickets
  import opened DocStore

  /** One element of the list: `{id: doc.id, ...doc.data()}`. */
  datatype Doc = Doc(id: TicketId, data: Ticket)

  /** `docs` is a snapshot of the store: exactly its documents, each with its
      current contents (in whatever order the query returns them). */
  ghost predicate Snapshot(s: Store, docs: seq<Doc>) {
    forall d :: d in docs <==> d.id in s && s[d.id] == d.data
  }

  // ---------------------------------------------------------------------
  // Order-preserving selection

  /** `a` is a subsequence of `b`: `a` is `b` with some elements dropped and
      the rest in their original order. */
  predicate IsSubseq(a: seq<Doc>, b: seq<Doc>)
    decreases |b|
  {
    if a == [] then true
    else if b == [] then false
    else if a[0] == b[0] then IsSubseq(a[1..], b[1..])
    else IsSubseq(a, b[1..])
  }

  /** `Array.prototype.filter`: the elements satisfying `keep`, in order,
      each as many times as it occurs in `s`. */
  function Where(s: seq<Doc>, keep: Doc -> bool): (r: seq<Doc>)
    ensures forall d :: d in r <==> d in s && keep(d)
    ensures forall d :: multiset(r)[d] == if keep(d) then multiset(s)[d] else 0
    ensures forall i :: 0 <= i < |r| ==> keep(r[i])
    ensures IsSubseq(r, s)
    ensures |r| <= |s|
  {
    if s == [] then []
    else
      var rest := Where(s[1..], keep);
      assert s == [s[0]] + s[1..];
      if keep(s[0]) then [s[0]] + rest else rest
  }

  /** When every element passes, the filter returns its input. */
  lemma {:induction false} WhereKeepsAll(s: seq<Doc>, keep: Doc -> bool)
    requires forall i :: 0 <= i < |s| ==> keep(s[i])
    ensures Where(s, keep) == s
  {
    if s != [] {
      WhereKeepsAll(s[1..], keep);
      assert s == [s[0]] + s[1..];
    }
  }

  /** When some element fails, the filter returns fewer elements. */
  lemma {:induction false} WhereDrops(s: seq<Doc>, keep: Doc -> bool, i: nat)
    requires i < |s| && !keep(s[i])
    ensures |Where(s, keep)| < |s|
  {
    var t := s[1..];
    if i == 0 {
      assert Where(s, keep) == Where(t, keep);
    } else {
      assert t[i - 1] == s[i];
      WhereDrops(t, keep, i - 1);
      assert |Where(s, keep)| <= 1 + |Where(t, keep)|;
    }
  }

  // ---------------------------------------------------------------------
  // The live query

  /** `where('status', 'in', ['open', 'in_progress'])`. */
  predicate Active(d: Doc) {
    d.data.status == Open || d.data.status == InProgress
  }

  /** The query result: the open and in-progress documents, each as often as
      the snapshot holds it, in snapshot order. */
  function LiveQuery(docs: seq<Doc>): (r: seq<Doc>)
    ensures forall d :: multiset(r)[d] == if Active(d) then multiset(docs)[d] else 0
    ensures forall d :: d in r ==> d.data.status != Resolved
    ensures IsSubseq(r, docs)
  {
    Where(docs, Active)
  }

  // ---------------------------------------------------------------------
  // The priority sort

  function DocRank(d: Doc): nat {
    Rank(d.data.priority)
  }

  predicate SortedByRank(s: seq<Doc>) {
    forall i, j :: 0 <= i < j < |s| ==> DocRank(s[i]) <= DocRank(s[j])
  }

  /** Prepending an element no less urgent than the head keeps a list sorted. */
  lemma SortedCons(a: Doc, r: seq<Doc>)
    requires r == [] || DocRank(a) <= DocRank(r[0])
    ensures SortedByRank(r) ==> SortedByRank([a] + r)
  {
    var s := [a] + r;
    if SortedByRank(r) {
      forall i, j | 0 <= i < j < |s|
      ensures DocRank(s[i]) <= DocRank(s[j])
    {
      if i == 0 {
        assert s[j] == r[j - 1];
        assert DocRank(r[0]) <= DocRank(r[j - 1]) || j - 1 == 0;
      }
      }
    }
  }

  /** Inserts `x` before the first element that is not more urgent than it. */
  function Insert(x: Doc, s: seq<Doc>): (r: seq<Doc>)
    ensures multiset(r) == multiset(s) + multiset{x}
    ensures |r| > 0 && (r[0] == x || (s != [] && r[0] == s[0]))
  {
    if s == [] then [x]
    else if DocRank(x) <= DocRank(s[0]) then [x] + s
    else
      assert s == [s[0]] + s[1..];
      [s[0]] + Insert(x, s[1..])
  }

  /** Insertion keeps a sorted list sorted. */
  lemma {:induction false} InsertKeepsSorted(x: Doc, s: seq<Doc>)
    requires SortedByRank(s)
    ensures SortedByRank(Insert(x, s))
  {
    if s == [] {
    } else if DocRank(x) <= DocRank(s[0]) {
      SortedCons(x, s);
    } else {
      var rest := Insert(x, s[1..]);
      assert SortedByRank(s[1..]);
      InsertKeepsSorted(x, s[1..]);
      assert |s| > 1 ==> DocRank(s[0]) <= DocRank(s[1]);
      SortedCons(s[0], rest);
    }
  }

  /** `ticketData.sort((a, b) => priorityOrder[a.priority] - priorityOrder[b.priority])`.
      The comparator only looks at the rank and the sort is stable, so this
      insertion sort (earlier elements go before later ones of equal rank)
      computes the same order. */
  function SortByPriority(s: seq<Doc>): (r: seq<Doc>)
    ensures SortedByRank(r)
    ensures multiset(r) == multiset(s)
  {
    if s == [] then []
    else
      var rest := SortByPriority(s[1..]);
      SortStep(s, rest);
      Insert(s[0], rest)
  }

  /** One step of the insertion sort: inserting the head into the sorted
      tail gives a sorted permutation of the whole list. */
  lemma SortStep(s: seq<Doc>, rest: seq<Doc>)
    requires s != [] && SortedByRank(rest) && multiset(rest) == multiset(s[1..])
    ensures SortedByRank(Insert(s[0], rest))
    ensures multiset(Insert(s[0], rest)) == multiset(s)
  {
    InsertKeepsSorted(s[0], rest);
    assert s == [s[0]] + s[1..];
  }

  /** The tickets of rank `k`, in input order. */
  function Bucket(s: seq<Doc>, k: nat): (r: seq<Doc>)
    ensures forall i :: 0 <= i < |r| ==> DocRank(r[i]) == k
  {
    if s == [] then []
    else if DocRank(s[0]) == k then [s[0]] + Bucket(s[1..], k)
    else Bucket(s[1..], k)
  }

  /** Reference order of a stable sort by rank: all high tickets, then all
      medium, then all low, each group in input order. */
  function StableOrder(s: seq<Doc>): seq<Doc> {
    Bucket(s, 0) + Bucket(s, 1) + Bucket(s, 2)
  }

  /** Inserting past a run of strictly more urgent elements lands in front of
      the first element of equal or lower urgency. */
  lemma {:induction false} InsertAfterMoreUrgent(x: Doc, a: seq<Doc>, c: seq<Doc>)
    requires forall i :: 0 <= i < |a| ==> DocRank(a[i]) < DocRank(x)
    requires c == [] || DocRank(x) <= DocRank(c[0])
    ensures Insert(x, a + c) == a + [x] + c
  {
    if a == [] {
      assert a + c == c;
      assert a + [x] + c == [x] + c;
    } else {
      assert (a + c)[0] == a[0];
      assert (a + c)[1..] == a[1..] + c;
      InsertAfterMoreUrgent(x, a[1..], c);
      assert a + [x] + c == [a[0]] + (a[1..] + [x] + c);
    }
  }

  /** Inserting the head of `s` into the reference order of its tail gives
      the reference order of `s`. */
  lemma {:induction false} InsertIntoStable(s: seq<Doc>)
    requires s != []
    ensures Insert(s[0], StableOrder(s[1..])) == StableOrder(s)
  {
    var x, t := s[0], s[1..];
    var b0, b1, b2 := Bucket(t, 0), Bucket(t, 1), Bucket(t, 2);
    assert StableOrder(t) == b0 + b1 + b2;
    if DocRank(x) == 0 {
      assert Bucket(s, 0) == [x] + b0 && Bucket(s, 1) == b1 && Bucket(s, 2) == b2;
      InsertRank0(x, b0, b1, b2);
    } else if DocRank(x) == 1 {
      assert Bucket(s, 0) == b0 && Bucket(s, 1) == [x] + b1 && Bucket(s, 2) == b2;
      InsertRank1(x, b0, b1, b2);
    } else {
      assert Bucket(s, 0) == b0 && Bucket(s, 1) == b1 && Bucket(s, 2) == [x] + b2;
      InsertRank2(x, b0, b1, b2);
    }
  }

  lemma {:induction false} InsertRank0(x: Doc, b0: seq<Doc>, b1: seq<Doc>, b2: seq<Doc>)
    requires DocRank(x) == 0
    ensures Insert(x, b0 + b1 + b2) == ([x] + b0) + b1 + b2
  {
    var s := b0 + b1 + b2;
    assert Insert(x, s) == [x] + s;
    assert [x] + s == ([x] + b0) + b1 + b2;
  }

  lemma {:induction false} InsertRank1(x: Doc, b0: seq<Doc>, b1: seq<Doc>, b2: seq<Doc>)
    requires DocRank(x) == 1
    requires forall i :: 0 <= i < |b0| ==> DocRank(b0[i]) == 0
    requires forall i :: 0 <= i < |b1| ==> DocRank(b1[i]) == 1
    requires forall i :: 0 <= i < |b2| ==> DocRank(b2[i]) == 2
    ensures Insert(x, b0 + b1 + b2) == b0 + ([x] + b1) + b2
  {
    var c := b1 + b2;
    assert c == [] || DocRank(x) <= DocRank(c[0]) by {
      if c != [] && b1 == [] { assert c[0] == b2[0]; }
    }
    InsertAfterMoreUrgent(x, b0, c);
    assert b0 + b1 + b2 == b0 + c;
    assert b0 + [x] + c == b0 + ([x] + b1) + b2;
  }

  lemma {:induction false} InsertRank2(x: Doc, b0: seq<Doc>, b1: seq<Doc>, b2: seq<Doc>)
    requires DocRank(x) == 2
    requires forall i :: 0 <= i < |b0| ==> DocRank(b0[i]) == 0
    requires forall i :: 0 <= i < |b1| ==> DocRank(b1[i]) == 1
    requires forall i :: 0 <= i < |b2| ==> DocRank(b2[i]) == 2
    ensures Insert(x, b0 + b1 + b2) == b0 + b1 + ([x] + b2)
  {
    var a := b0 + b1;
    assert forall i :: 0 <= i < |a| ==> DocRank(a[i]) < 2 by {
      forall i | 0 <= i < |a| ensures DocRank(a[i]) < 2 {
        if i < |b0| { assert a[i] == b0[i]; } else { assert a[i] == b1[i - |b0|]; }
      }
    }
    InsertAfterMoreUrgent(x, a, b2);
    assert a + [x] + b2 == b0 + b1 + ([x] + b2);
  }

  /** The sort is stable: it returns exactly the reference order. */
  lemma {:induction false} SortIsStable(s: seq<Doc>)
    ensures SortByPriority(s) == StableOrder(s)
  {
    if s != [] {
      SortIsStable(s[1..]);
      InsertIntoStable(s);
    }
  }

  /** What the dashboard holds in `tickets`: the active documents of the
      snapshot, each as often as the snapshot holds it, most urgent first. */
  function TicketList(docs: seq<Doc>): (r: seq<Doc>)
    ensures forall d :: multiset(r)[d] == if Active(d) then multiset(docs)[d] else 0
    ensures SortedByRank(r)
  {
    SortByPriority(LiveQuery(docs))
  }

  /** The list holds exactly the open and in-progress tickets of the snapshot,
      most urgent first; resolved tickets never appear. */
  lemma TicketListContents(s: Store, docs: seq<Doc>)
    requires Snapshot(s, docs)
    ensures forall d :: d in TicketList(docs) <==> d.id in s && s[d.id] == d.data && Active(d)
    ensures forall d :: d in TicketList(docs) ==> d.data.status != Resolved
    ensures SortedByRank(TicketList(docs))
    ensures multiset(TicketList(docs)) == multiset(LiveQuery(docs))
  {
    forall d ensures d in TicketList(docs) <==> d in LiveQuery(docs) {
      assert d in TicketList(docs) <==> d in multiset(TicketList(docs));
    }
  }

  // ---------------------------------------------------------------------
  // Filters and counts

  /** The values of the dashboard's `filter` state. */
  datatype ListFilter = All | My | Unassigned

  /** The predicate of `filteredTickets`: `my` compares the assignee with the
      agent's uid (strict equality), `unassigned` tests the assignee for
      falsiness, anything else keeps every ticket. */
  predicate Keeps(f: ListFilter, uid: AgentId, d: Doc) {
    match f
    case My => d.data.assignedAgent == Some(uid)
    case Unassigned => !HasAssignee(d.data)
    case All => true
  }

  /** `filteredTickets`: the tickets the filter keeps, each as often as the
      list holds it, in list order. */
  function Filtered(tickets: seq<Doc>, f: ListFilter, uid: AgentId): (r: seq<Doc>)
    ensures forall d :: multiset(r)[d] == if Keeps(f, uid, d) then multiset(tickets)[d] else 0
    ensures IsSubseq(r, tickets)
  {
    Where(tickets, d => Keeps(f, uid, d))
  }

  /** Each filter selects exactly its tickets, every occurrence of them, in
      list order. */
  lemma FilterSelects(tickets: seq<Doc>, uid: AgentId)
    ensures Filtered(tickets, All, uid) == tickets
    ensures forall d :: d in Filtered(tickets, My, uid) <==> d in tickets && d.data.assignedAgent == Some(uid)
    ensures forall d :: d in Filtered(tickets, Unassigned, uid) <==> d in tickets && !HasAssignee(d.data)
    ensures forall d ::
              multiset(Filtered(tickets, My, uid))[d]
              == (if d.data.assignedAgent == Some(uid) then multiset(tickets)[d] else 0)
    ensures forall d ::
              multiset(Filtered(tickets, Unassigned, uid))[d]
              == (if !HasAssignee(d.data) then multiset(tickets)[d] else 0)
    ensures IsSubseq(Filtered(tickets, My, uid), tickets)
    ensures IsSubseq(Filtered(tickets, Unassigned, uid), tickets)
  {
    AllKeepsEverything(tickets, uid);
  }

  lemma {:induction false} AllKeepsEverything(tickets: seq<Doc>, uid: AgentId)
    ensures Filtered(tickets, All, uid) == tickets
  {
    if tickets != [] {
      AllKeepsEverything(tickets[1..], uid);
    }
  }

  /** The three button labels: `All (n)`, `My Tickets (n)`, `Unassigned (n)`. */
  datatype Counts = Counts(all: nat, mine: nat, unassigned: nat)

  /** The three counts, each over the whole list whatever filter is active. */
  function CountsOf(tickets: seq<Doc>, uid: AgentId): (c: Counts)
    ensures c.all == |tickets|
    ensures c.mine <= c.all && c.unassigned <= c.all
  {
    Counts(|tickets|, |Filtered(tickets, My, uid)|, |Filtered(tickets, Unassigned, uid)|)
  }

  /** A count equals the All count exactly when every ticket passes its
      filter, and is zero exactly when none does. */
  lemma CountsExtremes(tickets: seq<Doc>, uid: AgentId)
    ensures var c := CountsOf(tickets, uid);
      && (c.mine == c.all <==> forall i :: 0 <= i < |tickets| ==> tickets[i].data.assignedAgent == Some(uid))
      && (c.mine == 0 <==> forall i :: 0 <= i < |tickets| ==> tickets[i].data.assignedAgent != Some(uid))
      && (c.unassigned == c.all <==> forall i :: 0 <= i < |tickets| ==> !HasAssignee(tickets[i].data))
      && (c.unassigned == 0 <==> forall i :: 0 <= i < |tickets| ==> HasAssignee(tickets[i].data))
  {
    CountExtremes(tickets, My, uid);
    CountExtremes(tickets, Unassigned, uid);
  }

  lemma CountExtremes(tickets: seq<Doc>, f: ListFilter, uid: AgentId)
    ensures |Filtered(tickets, f, uid)| == |tickets| <==> forall i :: 0 <= i < |tickets| ==> Keeps(f, uid, tickets[i])
    ensures |Filtered(tickets, f, uid)| == 0 <==> forall i :: 0 <= i < |tickets| ==> !Keeps(f, uid, tickets[i])
  {
    var keep := d => Keeps(f, uid, d);
    if forall i :: 0 <= i < |tickets| ==> Keeps(f, uid, tickets[i]) {
      WhereKeepsAll(tickets, keep);
    } else {
      var i :| 0 <= i < |tickets| && !Keeps(f, uid, tickets[i]);
      WhereDrops(tickets, keep, i);
    }
    if Filtered(tickets, f, uid) != [] {
      var d := Filtered(tickets, f, uid)[0];
      assert d in tickets;
    }
  }

  /** For a signed-in agent (non-empty uid) no ticket is both "mine" and
      "unassigned", so those two counts add up to at most the total. */
  lemma {:induction false} CountsBounded(tickets: seq<Doc>, uid: AgentId)
    requires uid != ""
    ensures var c := CountsOf(tickets, uid); c.mine + c.unassigned <= c.all
    ensures forall d :: !(d in Filtered(tickets, My, uid) && d in Filtered(tickets, Unassigned, uid))
  {
    if tickets != [] {
      CountsBounded(tickets[1..], uid);
    }
  }

  /** With an empty uid the two filters can overlap: a ticket whose assignee
      is the empty string is both "mine" and "unassigned". */
  lemma EmptyUidOverlaps(d: Doc)
    requires d.data.assignedAgent == Some("")
    ensures Keeps(My, "", d) && Keeps(Unassigned, "", d)
  {
  }
}
