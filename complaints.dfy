/**
 * Complaints (WeThrift/src/services/complaints.ts).
 *
 * `ComplaintDesk` holds the `complaints` table. None of the status updates looks at the
 * previous status; a comment is appended to the description as text; a status update other
 * than 'open' produces a notice to the complainant whose wording depends on the new status.
 */
module Complaints {
  import opened Wrappers
  import opened Tally

  datatype ComplaintStatus = Open | InProgress | Resolved | Closed

  datatype Priority = Low | Medium | High | Urgent

  /** The stored spelling of a status. */
  function StatusName(s: ComplaintStatus): string {
    match s
    case Open => "open"
    case InProgress => "in_progress"
    case Resolved => "resolved"
    case Closed => "closed"
  }

  datatype ComplaintDraft = ComplaintDraft(
    groupId: string,
    title: string,
    description: string,
    kind: string,
    category: Option<string>,
    priority: Option<Priority>)

  datatype Complaint = Complaint(
    id: string,
    userId: string,
    groupId: string,
    title: string,
    description: string,
    kind: string,
    category: Option<string>,
    status: ComplaintStatus,
    priority: Priority,
    assignedTo: Option<string>,
    resolution: Option<string>,
    resolvedAt: Option<string>,
    updatedAt: Option<string>)

  /** The fields an `updateComplaint` call supplies (None: not supplied, left as it is). */
  datatype ComplaintPatch = ComplaintPatch(
    title: Option<string>,
    description: Option<string>,
    status: Option<ComplaintStatus>,
    priority: Option<Priority>,
    assignedTo: Option<string>,
    resolution: Option<string>)

  /** An in-app notice to a user. */
  datatype Notice = Notice(userId: string, title: string, message: string, success: bool)

  datatype ComplaintError = NotFound | NoRow | DuplicateId

  function Message(e: ComplaintError): string {
    match e
    case NotFound => "Complaint not found"
    case NoRow => "JSON object requested, multiple (or no) rows returned"
    case DuplicateId => "duplicate key value violates unique constraint"
  }

  // ---------------------------------------------------------------------------------------
  // Rows

  /** The row `createComplaint` inserts: open, and of medium priority unless one is given. */
  function NewComplaint(draft: ComplaintDraft, userId: string, id: string): (c: Complaint)
    ensures c.status == Open && c.userId == userId && c.id == id
    ensures c.priority == draft.priority.GetOr(Medium)
    ensures c.title == draft.title && c.description == draft.description && c.category == draft.category
  {
    Complaint(id, userId, draft.groupId, draft.title, draft.description, draft.kind, draft.category, Open,
              draft.priority.GetOr(Medium), None, None, None, None)
  }

  function Patched(c: Complaint, p: ComplaintPatch, at: string): (u: Complaint)
    ensures u.status == p.status.GetOr(c.status) && u.priority == p.priority.GetOr(c.priority)
    ensures u.title == p.title.GetOr(c.title) && u.description == p.description.GetOr(c.description)
    ensures u.id == c.id && u.userId == c.userId
  {
    c.(title := p.title.GetOr(c.title), description := p.description.GetOr(c.description),
       status := p.status.GetOr(c.status), priority := p.priority.GetOr(c.priority),
       assignedTo := if p.assignedTo.Some? then p.assignedTo else c.assignedTo,
       resolution := if p.resolution.Some? then p.resolution else c.resolution,
       updatedAt := Some(at))
  }

  /** The text one comment appends. */
  function CommentText(userId: string, comment: string): string {
    "\n\nComment by " + userId + ": " + comment
  }

  /** A description after a comment: the old text is kept as a prefix. */
  function WithComment(description: string, userId: string, comment: string): (r: string)
    ensures |r| > |description| && r[..|description|] == description
    ensures r[|description|..] == CommentText(userId, comment)
  {
    description + CommentText(userId, comment)
  }

  /** A run of comments, each an author and a text. */
  datatype CommentEntry = CommentEntry(userId: string, comment: string)

  function AfterComments(description: string, entries: seq<CommentEntry>): string
    decreases |entries|
  {
    if entries == [] then description
    else AfterComments(WithComment(description, entries[0].userId, entries[0].comment), entries[1..])
  }

  function Transcript(entries: seq<CommentEntry>): string
    decreases |entries|
  {
    if entries == [] then "" else CommentText(entries[0].userId, entries[0].comment) + Transcript(entries[1..])
  }

  /** Successive comments keep the original description and add their texts in order. */
  lemma {:induction false} CommentsAccumulate(description: string, entries: seq<CommentEntry>)
    ensures AfterComments(description, entries) == description + Transcript(entries)
    decreases |entries|
  {
    if entries != [] {
      var e := entries[0];
      var c, rest := CommentText(e.userId, e.comment), Transcript(entries[1..]);
      CommentsAccumulate(WithComment(description, e.userId, e.comment), entries[1..]);
      assert AfterComments(description, entries) == (description + c) + rest;
      assert Transcript(entries) == c + rest;
      assert (description + c) + rest == description + (c + rest);
    }
  }

  // ---------------------------------------------------------------------------------------
  // Update notices

  /** The phrase for a status name; names without one fall back to "has been updated". */
  function StatusPhrase(status: string): string {
    if status == "in_progress" then "is now being processed"
    else if status == "resolved" then "has been resolved"
    else if status == "closed" then "has been closed"
    else "has been updated"
  }

  /** The notice `notifyComplaintUpdate` sends for a complaint and a status name. */
  function UpdateNotice(c: Complaint, status: string): (n: Notice)
    ensures n.userId == c.userId && n.title == "Complaint Update"
    ensures n.success <==> status == "resolved"
  {
    Notice(c.userId, "Complaint Update", "Your complaint \"" + c.title + "\" " + StatusPhrase(status) + ".", status == "resolved")
  }

  /** Whether `updateComplaint` notifies: a status was supplied and it is not 'open'. */
  predicate Notifies(p: ComplaintPatch) {
    p.status.Some? && p.status.value != Open
  }

  /** Every status `updateComplaint` notifies about has its own phrase: the fallback is
      reached only by names outside the status set. */
  lemma NotifiedStatusesHavePhrases(p: ComplaintPatch)
    requires Notifies(p)
    ensures StatusPhrase(StatusName(p.status.value)) != "has been updated"
    ensures StatusPhrase(StatusName(p.status.value)) ==
      match p.status.value
      case InProgress => "is now being processed"
      case Resolved => "has been resolved"
      case _ => "has been closed"
  {
  }

  /** The phrases of distinct notified statuses are distinct, so a notice names its status. */
  lemma PhrasesDistinguishStatuses(s: ComplaintStatus, t: ComplaintStatus)
    requires s != Open && t != Open
    ensures StatusPhrase(StatusName(s)) == StatusPhrase(StatusName(t)) <==> s == t
  {
  }

  // ---------------------------------------------------------------------------------------
  // Categories and statistics

  predicate NoDuplicates(xs: seq<string>) {
    forall i, j :: 0 <= i < j < |xs| ==> xs[i] != xs[j]
  }

  /** `[...new Set(xs)]`: each value of the list exactly once. */
  function Distinct(xs: seq<string>): (r: seq<string>)
    ensures NoDuplicates(r)
    ensures forall x :: x in r <==> x in xs
    ensures |r| <= |xs|
  {
    if xs == [] then []
    else
      var n := |xs| - 1;
      var d := Distinct(xs[..n]);
      assert xs == xs[..n] + [xs[n]];
      if xs[n] in d then d else d + [xs[n]]
  }

  /** A list without duplicates is its own distinct list, so deduplicating twice changes nothing. */
  lemma {:induction false} DistinctOfDistinct(xs: seq<string>)
    requires NoDuplicates(xs)
    ensures Distinct(xs) == xs
  {
    if xs != [] {
      var n := |xs| - 1;
      DistinctOfDistinct(xs[..n]);
      assert xs == xs[..n] + [xs[n]];
      assert xs[n] !in xs[..n];
    }
  }

  function Present(rows: seq<Option<string>>): (r: seq<string>)
    ensures forall x :: x in r <==> Some(x) in rows
  {
    if rows == [] then []
    else
      var rest := Present(rows[1..]);
      assert forall y :: y in rows <==> y == rows[0] || y in rows[1..];
      if rows[0].Some? then [rows[0].value] + rest else rest
  }

  /** `getComplaintCategories`: the distinct non-null categories. */
  function GetComplaintCategories(rows: seq<Option<string>>): (r: seq<string>)
    ensures NoDuplicates(r)
    ensures forall x :: x in r <==> Some(x) in rows
  {
    Distinct(Present(rows))
  }

  /** The `status, priority, type` projection of a row. */
  datatype ComplaintFacts = ComplaintFacts(status: ComplaintStatus, priority: Priority, kind: string)

  datatype ComplaintStats = ComplaintStats(
    totalComplaints: nat,
    openComplaints: nat,
    inProgressComplaints: nat,
    resolvedComplaints: nat,
    closedComplaints: nat,
    highPriorityComplaints: nat,
    urgentComplaints: nat,
    transactionComplaints: nat,
    serviceComplaints: nat,
    technicalComplaints: nat)

  /** The aggregation of `getComplaintStats`. */
  function GetComplaintStats(rows: seq<ComplaintFacts>): (r: ComplaintStats)
    ensures r.totalComplaints == |rows|
  {
    ComplaintStats(|rows|,
                   CountWhere(rows, (c: ComplaintFacts) => c.status == Open), CountWhere(rows, (c: ComplaintFacts) => c.status == InProgress),
                   CountWhere(rows, (c: ComplaintFacts) => c.status == Resolved), CountWhere(rows, (c: ComplaintFacts) => c.status == Closed),
                   CountWhere(rows, (c: ComplaintFacts) => c.priority == High), CountWhere(rows, (c: ComplaintFacts) => c.priority == Urgent),
                   CountWhere(rows, (c: ComplaintFacts) => c.kind == "transaction"), CountWhere(rows, (c: ComplaintFacts) => c.kind == "service"),
                   CountWhere(rows, (c: ComplaintFacts) => c.kind == "technical"))
  }

  /** Every complaint is counted under exactly one status. */
  lemma {:induction false} StatusCountsPartition(rows: seq<ComplaintFacts>)
    ensures var st := GetComplaintStats(rows);
      st.openComplaints + st.inProgressComplaints + st.resolvedComplaints + st.closedComplaints == st.totalComplaints
  {
    if rows != [] {
      StatusCountsPartition(rows[1..]);
    }
  }

  /** The priority counts and the type counts never exceed the total together. */
  lemma {:induction false} OtherCountsBounded(rows: seq<ComplaintFacts>)
    ensures var st := GetComplaintStats(rows);
      && st.highPriorityComplaints + st.urgentComplaints <= st.totalComplaints
      && st.transactionComplaints + st.serviceComplaints + st.technicalComplaints <= st.totalComplaints
  {
    if rows != [] {
      OtherCountsBounded(rows[1..]);
    }
  }

  // ---------------------------------------------------------------------------------------
  // The table

  class ComplaintDesk {
    var complaints: map<string, Complaint>

    ghost predicate Valid()
      reads this
    {
      forall id :: id in complaints ==> complaints[id].id == id
    }

    constructor ()
      ensures complaints == map[] && Valid()
    {
      complaints := map[];
    }

    method CreateComplaint(draft: ComplaintDraft, userId: string, id: string) returns (res: Result<Complaint, ComplaintError>)
      requires Valid()
      modifies this
      ensures Valid()
      ensures id in old(complaints) ==> res == Err(DuplicateId) && complaints == old(complaints)
      ensures id !in old(complaints) ==> res == Ok(NewComplaint(draft, userId, id)) && complaints == old(complaints)[id := res.value]
    {
      if id in complaints {
        res := Err(DuplicateId);
      } else {
        var c := NewComplaint(draft, userId, id);
        complaints := complaints[id := c];
        res := Ok(c);
      }
    }

    /** `updateComplaint`: the supplied fields, then a notice when a status other than 'open' was supplied. */
    method UpdateComplaint(id: string, patch: ComplaintPatch, at: string) returns (res: Result<Complaint, ComplaintError>, notice: Option<Notice>)
      requires Valid()
      modifies this
      ensures Valid()
      ensures id !in old(complaints) ==> res == Err(NoRow) && notice.None? && complaints == old(complaints)
      ensures id in old(complaints) ==>
        res == Ok(Patched(old(complaints)[id], patch, at)) && complaints == old(complaints)[id := res.value]
      ensures notice.Some? <==> res.Ok? && Notifies(patch)
      ensures notice.Some? ==> notice.value == UpdateNotice(res.value, StatusName(patch.status.value))
    {
      notice := None;
      if id !in complaints {
        res := Err(NoRow);
        return;
      }
      var c := Patched(complaints[id], patch, at);
      complaints := complaints[id := c];
      res := Ok(c);
      if patch.status.Some? && patch.status.value != Open {
        notice := Some(UpdateNotice(c, StatusName(patch.status.value)));
      }
    }

    /** `assignComplaint`: in progress with the assignee, whatever the previous status. */
    method AssignComplaint(id: string, assignedTo: string, at: string) returns (res: Result<Complaint, ComplaintError>)
      requires Valid()
      modifies this
      ensures Valid()
      ensures id !in old(complaints) ==> res == Err(NoRow) && complaints == old(complaints)
      ensures id in old(complaints) ==>
        res == Ok(old(complaints)[id].(status := InProgress, assignedTo := Some(assignedTo), updatedAt := Some(at)))
        && complaints == old(complaints)[id := res.value]
    {
      if id !in complaints {
        res := Err(NoRow);
      } else {
        var c := complaints[id].(status := InProgress, assignedTo := Some(assignedTo), updatedAt := Some(at));
        complaints := complaints[id := c];
        res := Ok(c);
      }
    }

    /** `resolveComplaint`: resolved with the resolution, whatever the previous status. */
    method ResolveComplaint(id: string, resolution: string, at: string) returns (res: Result<Complaint, ComplaintError>)
      requires Valid()
      modifies this
      ensures Valid()
      ensures id !in old(complaints) ==> res == Err(NoRow) && complaints == old(complaints)
      ensures id in old(complaints) ==>
        res == Ok(old(complaints)[id].(status := Resolved, resolution := Some(resolution), resolvedAt := Some(at), updatedAt := Some(at)))
        && complaints == old(complaints)[id := res.value]
    {
      if id !in complaints {
        res := Err(NoRow);
      } else {
        var c := complaints[id].(status := Resolved, resolution := Some(resolution), resolvedAt := Some(at), updatedAt := Some(at));
        complaints := complaints[id := c];
        res := Ok(c);
      }
    }

    /** `closeComplaint`: closed, whatever the previous status. */
    method CloseComplaint(id: string, at: string) returns (res: Result<Complaint, ComplaintError>)
      requires Valid()
      modifies this
      ensures Valid()
      ensures id !in old(complaints) ==> res == Err(NoRow) && complaints == old(complaints)
      ensures id in old(complaints) ==>
        res == Ok(old(complaints)[id].(status := Closed, updatedAt := Some(at))) && complaints == old(complaints)[id := res.value]
    {
      if id !in complaints {
        res := Err(NoRow);
      } else {
        var c := complaints[id].(status := Closed, updatedAt := Some(at));
        complaints := complaints[id := c];
        res := Ok(c);
      }
    }

    /** `addComplaintComment`: the comment is appended to the description. */
    method AddComplaintComment(id: string, comment: string, userId: string, at: string) returns (res: Result<Complaint, ComplaintError>)
      requires Valid()
      modifies this
      ensures Valid()
      ensures id !in old(complaints) ==> res == Err(NotFound) && complaints == old(complaints)
      ensures id in old(complaints) ==>
        res == Ok(old(complaints)[id].(description := WithComment(old(complaints)[id].description, userId, comment), updatedAt := Some(at)))
        && complaints == old(complaints)[id := res.value]
    {
      if id !in complaints {
        res := Err(NotFound);
      } else {
        var c := complaints[id];
        c := c.(description := WithComment(c.description, userId, comment), updatedAt := Some(at));
        complaints := complaints[id := c];
        res := Ok(c);
      }
    }

    /** `escalateComplaint`: urgent and in progress, then an "ESCALATED: <reason>" comment by
        the escalating user. The returned row is the one before the comment. */
    method EscalateComplaint(id: string, escalatedBy: string, reason: string, at: string) returns (res: Result<Complaint, ComplaintError>)
      requires Valid()
      modifies this
      ensures Valid()
      ensures id !in old(complaints) ==> res == Err(NoRow) && complaints == old(complaints)
      ensures id in old(complaints) ==>
        var c := old(complaints)[id];
        && res == Ok(c.(priority := Urgent, status := InProgress, updatedAt := Some(at)))
        && complaints == old(complaints)[id := res.value.(description := WithComment(c.description, escalatedBy, "ESCALATED: " + reason))]
    {
      if id !in complaints {
        res := Err(NoRow);
        return;
      }
      var c := complaints[id].(priority := Urgent, status := InProgress, updatedAt := Some(at));
      complaints := complaints[id := c];
      res := Ok(c);
      var _ := AddComplaintComment(id, "ESCALATED: " + reason, escalatedBy, at);
    }
  }
}
