/**
 * Notifications (WeThrift/src/services/notifications.ts).
 *
 * `NotificationCenter` holds the `notifications` table as a map from id to row, together with
 * the order in which the rows were inserted (the creation order that `getUserNotifications`
 * sorts by). Every notification is stored as pending and then processed: the channel decides
 * whether it ends delivered, sent, failed or still pending. The users' contact details are a
 * parameter, and the sending itself (which only logs) is not modelled.
 */
module Notifications {
  import opened Wrappers

  datatype Kind = Info | Success | Warning | Error

  /** The four channels the service knows, and any other value a caller may pass. */
  datatype Channel = Email | Sms | Push | InApp | Unrecognised(name: string)

  datatype DeliveryStatus = Pending | Sent | Delivered | Failed

  /** What a caller asks `sendNotification` to send. */
  datatype Request = Request(
    userId: string,
    title: string,
    message: string,
    kind: Kind,
    channel: Channel,
    metadata: Option<map<string, string>>)

  datatype Notification = Notification(
    id: string,
    userId: string,
    title: string,
    message: string,
    kind: Kind,
    channel: Channel,
    status: DeliveryStatus,
    metadata: map<string, string>,
    sentAt: Option<string>,
    updatedAt: Option<string>)

  /** The `email` and `phone` columns of a user row; a JavaScript-falsy value is `None` or "". */
  datatype Contact = Contact(email: Option<string>, phone: Option<string>)

  predicate Filled(s: Option<string>) {
    s.Some? && |s.value| > 0
  }

  /** Whether the user's row exists and has what the channel needs (an email, a phone number). */
  predicate Reachable(channel: Channel, userId: string, users: map<string, Contact>) {
    match channel
    case Email => userId in users && Filled(users[userId].email)
    case Sms => userId in users && Filled(users[userId].phone)
    case _ => true
  }

  /** The row inserted for a request: pending, with metadata defaulting to the empty object. */
  function Stored(req: Request, id: string): (n: Notification)
    ensures n.status == Pending && n.id == id && n.sentAt.None? && n.updatedAt.None?
    ensures n.userId == req.userId && n.title == req.title && n.message == req.message
    ensures n.kind == req.kind && n.channel == req.channel
    ensures n.metadata == (if req.metadata.Some? then req.metadata.value else map[])
  {
    Notification(id, req.userId, req.title, req.message, req.kind, req.channel, Pending,
                 req.metadata.GetOr(map[]), None, None)
  }

  /** `processNotification`: the row after the channel's sender has run. */
  function Processed(n: Notification, users: map<string, Contact>, at: string): (r: Notification)
    ensures r.(status := n.status, sentAt := n.sentAt) == n
    ensures n.channel.Unrecognised? ==> r == n
    ensures !n.channel.Unrecognised? ==> (r.status == Failed <==> !Reachable(n.channel, n.userId, users))
    ensures !n.channel.Unrecognised? && r.status != Failed ==>
      r.sentAt == Some(at) && r.status == (if n.channel == InApp then Delivered else Sent)
  {
    match n.channel
    case Email => if Reachable(Email, n.userId, users) then n.(status := Sent, sentAt := Some(at)) else n.(status := Failed)
    case Sms => if Reachable(Sms, n.userId, users) then n.(status := Sent, sentAt := Some(at)) else n.(status := Failed)
    case Push => n.(status := Sent, sentAt := Some(at))
    case InApp => n.(status := Delivered, sentAt := Some(at))
    case Unrecognised(_) => n
  }

  /** A freshly stored notification ends in exactly one outcome, decided by its channel. */
  lemma DeliveryOutcome(req: Request, id: string, users: map<string, Contact>, at: string)
    ensures var r := Processed(Stored(req, id), users, at);
      && (r.status == Pending <==> req.channel.Unrecognised?)
      && (r.status == Delivered <==> req.channel == InApp)
      && (r.status == Sent <==> req.channel == Push || (req.channel in {Email, Sms} && Reachable(req.channel, req.userId, users)))
      && (r.status == Failed <==> req.channel in {Email, Sms} && !Reachable(req.channel, req.userId, users))
      && (r.sentAt.Some? <==> r.status in {Sent, Delivered})
  {
  }

  /** The request `sendSystemMaintenanceNotification` makes for one active user. */
  function MaintenanceRequest(userId: string, message: string, scheduledTime: string): (q: Request)
    ensures q.userId == userId && q.kind == Warning && q.channel == InApp
  {
    Request(userId, "System Maintenance", message + " Scheduled for: " + scheduledTime, Warning, InApp,
            Some(map["scheduledTime" := scheduledTime]))
  }

  function MaintenanceRequests(userIds: seq<string>, message: string, scheduledTime: string): (qs: seq<Request>)
    ensures |qs| == |userIds|
    ensures forall i :: 0 <= i < |userIds| ==> qs[i] == MaintenanceRequest(userIds[i], message, scheduledTime)
  {
    seq(|userIds|, i requires 0 <= i < |userIds| => MaintenanceRequest(userIds[i], message, scheduledTime))
  }

  /** The metadata `markNotificationAsRead` and `markAllNotificationsAsRead` write. */
  const ReadMark: map<string, string> := map["read" := "true"]

  predicate Read(n: Notification) {
    n.metadata == ReadMark
  }

  /** The row a mark-all-read leaves: only the user's delivered rows take the read mark. */
  function MarkedRead(n: Notification, userId: string, at: string): (r: Notification)
    ensures r.status == n.status && r.id == n.id && r.userId == n.userId
    ensures n.userId == userId && n.status == Delivered ==> Read(r) && r.updatedAt == Some(at)
    ensures !(n.userId == userId && n.status == Delivered) ==> r == n
  {
    if n.userId == userId && n.status == Delivered then n.(metadata := ReadMark, updatedAt := Some(at)) else n
  }

  predicate Distinct(ids: seq<string>) {
    forall i, j :: 0 <= i < j < |ids| ==> ids[i] != ids[j]
  }

  lemma DistinctAppend(s: seq<string>, x: string)
    requires Distinct(s) && x !in s
    ensures Distinct(s + [x])
  {
  }

  /**
   * `.range(offset, offset + limit - 1)` of an ordered result: at most `limit` rows, starting
   * at position `offset`, and nothing when the offset is past the end.
   */
  function Page(rows: seq<Notification>, limit: nat, offset: nat): (r: seq<Notification>)
    ensures |r| <= limit
    ensures offset >= |rows| ==> r == []
    ensures offset < |rows| ==> |r| == (if offset + limit <= |rows| then limit else |rows| - offset)
    ensures forall i :: 0 <= i < |r| ==> offset + i < |rows| && r[i] == rows[offset + i]
  {
    if offset >= |rows| then []
    else if offset + limit <= |rows| then rows[offset..offset + limit]
    else rows[offset..]
  }

  /** Two consecutive pages together are the page as long as both. */
  lemma {:induction false} PagesConcatenate(rows: seq<Notification>, a: nat, b: nat, offset: nat)
    ensures Page(rows, a, offset) + Page(rows, b, offset + a) == Page(rows, a + b, offset)
  {
    var p, q, w := Page(rows, a, offset), Page(rows, b, offset + a), Page(rows, a + b, offset);
    assert |p| + |q| == |w|;
    forall i | 0 <= i < |w|
      ensures (p + q)[i] == w[i]
    {
      if i < |p| {
        assert (p + q)[i] == p[i];
      } else {
        assert |p| == a;
        assert (p + q)[i] == q[i - |p|];
      }
    }
  }

  /** The rows of `userId`, newest (last inserted) first. */
  function NewestFirst(order: seq<string>, notes: map<string, Notification>, userId: string): (r: seq<Notification>)
    requires forall k :: k in order ==> k in notes
    ensures |r| <= |order|
    ensures forall n :: n in r ==> n.userId == userId
    ensures forall n :: n in r <==> exists k :: k in order && notes[k] == n && n.userId == userId
    decreases |order|
  {
    if |order| == 0 then []
    else
      var last := notes[order[|order| - 1]];
      var rest := NewestFirst(order[..|order| - 1], notes, userId);
      assert forall k :: k in order <==> k in order[..|order| - 1] || k == order[|order| - 1];
      if last.userId == userId then [last] + rest else rest
  }

  /** A single id lists its row exactly when the row is the user's. */
  lemma NewestFirstSingle(k: string, notes: map<string, Notification>, userId: string)
    requires k in notes
    ensures NewestFirst([k], notes, userId) == if notes[k].userId == userId then [notes[k]] else []
  {
    assert [k][..0] == [];
  }

  lemma ConcatAssociates(p: seq<Notification>, q: seq<Notification>, r: seq<Notification>)
    ensures p + (q + r) == (p + q) + r
  {
  }

  /** One step of the listing: the last inserted row, if it is the user's, then the earlier rows. */
  lemma NewestFirstStep(order: seq<string>, notes: map<string, Notification>, userId: string)
    requires forall k :: k in order ==> k in notes
    requires |order| > 0
    ensures var last := notes[order[|order| - 1]];
      NewestFirst(order, notes, userId)
        == (if last.userId == userId then [last] else []) + NewestFirst(order[..|order| - 1], notes, userId)
  {
  }

  /** The rows inserted later come first: the listing of `a + b` is that of `b`, then that of `a`. */
  lemma {:induction false} NewestFirstConcat(a: seq<string>, b: seq<string>, notes: map<string, Notification>, userId: string)
    requires forall k :: k in a + b ==> k in notes
    ensures NewestFirst(a + b, notes, userId) == NewestFirst(b, notes, userId) + NewestFirst(a, notes, userId)
    decreases |b|
  {
    if b == [] {
      assert a + b == a;
    } else {
      var ab, b' := a + b, b[..|b| - 1];
      assert ab[..|ab| - 1] == a + b';
      assert ab[|ab| - 1] == b[|b| - 1];
      assert forall k :: k in b ==> k in ab;
      assert forall k :: k in a + b' ==> k in ab;
      NewestFirstStep(ab, notes, userId);
      NewestFirstStep(b, notes, userId);
      NewestFirstConcat(a, b', notes, userId);
      var last := notes[b[|b| - 1]];
      var own := if last.userId == userId then [last] else [];
      var x, y := NewestFirst(b', notes, userId), NewestFirst(a, notes, userId);
      assert NewestFirst(ab, notes, userId) == own + (x + y);
      assert NewestFirst(b, notes, userId) == own + x;
      ConcatAssociates(own, x, y);
    }
  }

  /** A row of the user sits somewhere in the listing. */
  lemma ListedSomewhere(order: seq<string>, notes: map<string, Notification>, userId: string, p: nat)
    requires forall k :: k in order ==> k in notes
    requires p < |order| && notes[order[p]].userId == userId
    ensures exists j :: 0 <= j < |NewestFirst(order, notes, userId)| && NewestFirst(order, notes, userId)[j] == notes[order[p]]
  {
    assert order[p] in order;
    assert notes[order[p]] in NewestFirst(order, notes, userId);
  }

  /** The listing around a row of the user: the later rows, that row, then the earlier rows. */
  lemma ListedAround(order: seq<string>, notes: map<string, Notification>, userId: string, q: nat)
    requires forall k :: k in order ==> k in notes
    requires q < |order| && notes[order[q]].userId == userId
    ensures NewestFirst(order, notes, userId)
      == NewestFirst(order[q + 1..], notes, userId) + [notes[order[q]]] + NewestFirst(order[..q], notes, userId)
  {
    var older, upto, newer := order[..q], order[..q + 1], order[q + 1..];
    assert upto == older + [order[q]];
    assert order == upto + newer;
    NewestFirstConcat(upto, newer, notes, userId);
    NewestFirstConcat(older, [order[q]], notes, userId);
    NewestFirstSingle(order[q], notes, userId);
  }

  /** Of two rows of the user, the one inserted later (position q in the order) is listed before
      the one inserted earlier (position p). */
  lemma NewerListedEarlier(order: seq<string>, notes: map<string, Notification>, userId: string, p: nat, q: nat)
    requires forall k :: k in order ==> k in notes
    requires p < q < |order|
    requires notes[order[p]].userId == userId && notes[order[q]].userId == userId
    ensures var r := NewestFirst(order, notes, userId);
      exists i, j :: 0 <= i < j < |r| && r[i] == notes[order[q]] && r[j] == notes[order[p]]
  {
    ListedAround(order, notes, userId, q);
    var older := order[..q];
    assert older[p] == order[p];
    ListedSomewhere(older, notes, userId, p);
    var n, o := NewestFirst(order[q + 1..], notes, userId), NewestFirst(older, notes, userId);
    var j :| 0 <= j < |o| && o[j] == notes[order[p]];
    var r := n + [notes[order[q]]] + o;
    assert r[|n|] == notes[order[q]];
    assert r[|n| + 1 + j] == notes[order[p]];
  }

  /** After a row is inserted, the first page of its user's notifications opens with it. */
  lemma NewestOnTop(order: seq<string>, notes: map<string, Notification>, n: Notification, limit: nat)
    requires forall k :: k in order ==> k in notes
    requires limit > 0
    ensures var r := Page(NewestFirst(order + [n.id], notes[n.id := n], n.userId), limit, 0);
      |r| > 0 && r[0] == n
  {
    var notes' := notes[n.id := n];
    NewestFirstConcat(order, [n.id], notes', n.userId);
    NewestFirstSingle(n.id, notes', n.userId);
  }

  /** The table's invariant: the insertion order lists each stored id once, and rows sit under their own ids. */
  ghost predicate Consistent(order: seq<string>, notes: map<string, Notification>) {
    && Distinct(order)
    && (forall k :: k in order <==> k in notes)
    && (forall k :: k in notes ==> notes[k].id == k)
  }

  /** Inserting a row under a fresh id, at the end of the order, keeps the table consistent. */
  lemma InsertKeepsConsistent(order: seq<string>, notes: map<string, Notification>, n: Notification)
    requires Consistent(order, notes) && n.id !in notes
    ensures Consistent(order + [n.id], notes[n.id := n])
  {
    DistinctAppend(order, n.id);
  }

  /** The first i of the batch's rows are stored pending, the rest are not yet stored, and the
      rows stored before the batch are kept. */
  ghost predicate InsertedUpTo(notes: map<string, Notification>, before: map<string, Notification>,
                               reqs: seq<Request>, ids: seq<string>, i: nat)
    requires |ids| == |reqs| && i <= |ids|
  {
    && (forall k :: 0 <= k < i ==> ids[k] in notes && notes[ids[k]] == Stored(reqs[k], ids[k]))
    && (forall k :: i <= k < |ids| ==> ids[k] !in notes)
    && (forall k :: k in before ==> k in notes && notes[k] == before[k])
  }

  /** Storing row i of a batch with distinct ids moves it from not yet stored to stored. */
  lemma InsertStep(notes: map<string, Notification>, before: map<string, Notification>,
                   reqs: seq<Request>, ids: seq<string>, i: nat)
    requires |ids| == |reqs| && i < |ids| && Distinct(ids)
    requires InsertedUpTo(notes, before, reqs, ids, i)
    ensures InsertedUpTo(notes[ids[i] := Stored(reqs[i], ids[i])], before, reqs, ids, i + 1)
  {
    assert forall k :: i < k < |ids| ==> ids[k] != ids[i];
  }

  /** The first j of the batch's rows are processed and the rest are still pending. */
  ghost predicate ProcessedUpTo(notes: map<string, Notification>, reqs: seq<Request>, ids: seq<string>,
                                users: map<string, Contact>, at: string, j: nat)
    requires |ids| == |reqs| && j <= |ids|
  {
    && (forall k :: 0 <= k < j ==> ids[k] in notes && notes[ids[k]] == Processed(Stored(reqs[k], ids[k]), users, at))
    && (forall k :: j <= k < |ids| ==> ids[k] in notes && notes[ids[k]] == Stored(reqs[k], ids[k]))
  }

  /** Processing row j of a batch with distinct ids moves it from pending to processed and touches no other row. */
  lemma ProcessStep(before: map<string, Notification>, reqs: seq<Request>, ids: seq<string>,
                    users: map<string, Contact>, at: string, j: nat)
    requires |ids| == |reqs| && j < |ids| && Distinct(ids)
    requires ProcessedUpTo(before, reqs, ids, users, at, j)
    ensures ProcessedUpTo(before[ids[j] := Processed(before[ids[j]], users, at)], reqs, ids, users, at, j + 1)
  {
    var after := before[ids[j] := Processed(before[ids[j]], users, at)];
    forall k | 0 <= k < |ids| && k != j
      ensures ids[k] in after && after[ids[k]] == before[ids[k]]
    {
      assert ids[k] != ids[j];
    }
  }

  class NotificationCenter {
    var notes: map<string, Notification>
    var order: seq<string>

    ghost predicate Valid()
      reads this
    {
      Consistent(order, notes)
    }

    constructor ()
      ensures notes == map[] && order == [] && Valid()
    {
      notes := map[];
      order := [];
    }

    /** `processNotification` on a stored row: the channel's sender updates its status. */
    method ProcessNotification(id: string, users: map<string, Contact>, at: string)
      requires Valid() && id in notes
      modifies this
      ensures Valid()
      ensures notes == old(notes)[id := Processed(old(notes)[id], users, at)] && order == old(order)
    {
      var n := notes[id];
      match n.channel {
        case Email =>
          if Reachable(Email, n.userId, users) {
            notes := notes[id := n.(status := Sent, sentAt := Some(at))];
          } else {
            notes := notes[id := n.(status := Failed)];
          }
        case Sms =>
          if Reachable(Sms, n.userId, users) {
            notes := notes[id := n.(status := Sent, sentAt := Some(at))];
          } else {
            notes := notes[id := n.(status := Failed)];
          }
        case Push =>
          notes := notes[id := n.(status := Sent, sentAt := Some(at))];
        case InApp =>
          notes := notes[id := n.(status := Delivered, sentAt := Some(at))];
        case Unrecognised(_) =>
      }
    }

    /**
     * `sendNotification`: the row is inserted as pending and then processed. The call
     * succeeds whatever the delivery outcome; only a failed insert (an id already taken)
     * makes it fail, and then nothing changes.
     */
    method SendNotification(req: Request, id: string, users: map<string, Contact>, at: string) returns (ok: bool)
      requires Valid()
      modifies this
      ensures Valid()
      ensures ok <==> id !in old(notes)
      ensures !ok ==> notes == old(notes) && order == old(order)
      ensures ok ==> notes == old(notes)[id := Processed(Stored(req, id), users, at)] && order == old(order) + [id]
    {
      if id in notes {
        return false;
      }
      Insert(Stored(req, id));
      ProcessNotification(id, users, at);
      ok := true;
    }

    /** One row inserted under its own, unused id, at the end of the order. */
    method Insert(n: Notification)
      requires Valid() && n.id !in notes
      modifies this
      ensures Valid()
      ensures notes == old(notes)[n.id := n] && order == old(order) + [n.id]
    {
      InsertKeepsConsistent(order, notes, n);
      notes := notes[n.id := n];
      order := order + [n.id];
    }

    /** The single insert of `sendBulkNotifications`: every row pending, in list order. */
    method InsertPending(reqs: seq<Request>, ids: seq<string>)
      requires Valid() && |ids| == |reqs| && Distinct(ids)
      requires forall i :: 0 <= i < |ids| ==> ids[i] !in notes
      modifies this
      ensures Valid()
      ensures order == old(order) + ids
      ensures forall k :: 0 <= k < |ids| ==> ids[k] in notes && notes[ids[k]] == Stored(reqs[k], ids[k])
      ensures forall k :: k in old(notes) ==> k in notes && notes[k] == old(notes)[k]
    {
      var i := 0;
      while i < |ids|
        invariant 0 <= i <= |ids|
        invariant Valid()
        invariant order == old(order) + ids[..i]
        invariant InsertedUpTo(notes, old(notes), reqs, ids, i)
      {
        var id := ids[i];
        assert ids[..i + 1] == ids[..i] + [id];
        ghost var before := notes;
        Insert(Stored(reqs[i], id));
        InsertStep(before, old(notes), reqs, ids, i);
        i := i + 1;
      }
      assert ids[..i] == ids;
    }

    /**
     * `sendBulkNotifications`: one insert of all rows (refused as a whole when an id is taken
     * or repeated), then each row is processed in list order.
     */
    method SendBulkNotifications(reqs: seq<Request>, ids: seq<string>, users: map<string, Contact>, at: string) returns (ok: bool)
      requires Valid() && |ids| == |reqs|
      modifies this
      ensures Valid()
      ensures ok <==> Distinct(ids) && forall i :: 0 <= i < |ids| ==> ids[i] !in old(notes)
      ensures !ok ==> notes == old(notes) && order == old(order)
      ensures ok ==> order == old(order) + ids
      ensures ok ==> forall i :: 0 <= i < |ids| ==> ids[i] in notes && notes[ids[i]] == Processed(Stored(reqs[i], ids[i]), users, at)
      ensures ok ==> forall k :: k in old(notes) ==> k in notes && notes[k] == old(notes)[k]
    {
      if !(Distinct(ids) && forall i :: 0 <= i < |ids| ==> ids[i] !in notes) {
        return false;
      }
      InsertPending(reqs, ids);
      ProcessPending(reqs, ids, users, at);
      ok := true;
    }

    /** The loop of `sendBulkNotifications`: each inserted row is processed, in list order. */
    method ProcessPending(reqs: seq<Request>, ids: seq<string>, users: map<string, Contact>, at: string)
      requires Valid() && |ids| == |reqs| && Distinct(ids)
      requires ProcessedUpTo(notes, reqs, ids, users, at, 0)
      modifies this
      ensures Valid() && order == old(order)
      ensures ProcessedUpTo(notes, reqs, ids, users, at, |ids|)
      ensures forall k :: k in old(notes) && k !in ids ==> k in notes && notes[k] == old(notes)[k]
    {
      var j := 0;
      while j < |ids|
        invariant 0 <= j <= |ids|
        invariant Valid() && order == old(order)
        invariant ProcessedUpTo(notes, reqs, ids, users, at, j)
        invariant forall k :: k in old(notes) && k !in ids ==> k in notes && notes[k] == old(notes)[k]
      {
        var id := ids[j];
        assert id in ids;
        ghost var before := notes;
        ProcessNotification(id, users, at);
        ProcessStep(before, reqs, ids, users, at, j);
        j := j + 1;
      }
    }

    /** `getUserNotifications`: the user's rows newest first, one page of them (limit 50 and offset 0 by default). */
    function UserNotifications(userId: string, limit: Option<nat>, offset: Option<nat>): (r: seq<Notification>)
      requires Valid()
      reads this
      ensures |r| <= limit.GetOr(50)
      ensures forall n :: n in r ==> n in notes.Values && n.userId == userId
    {
      Page(NewestFirst(order, notes, userId), limit.GetOr(50), offset.GetOr(0))
    }

    /**
     * `markNotificationAsRead`: delivered, with the metadata replaced by the read mark. An
     * update that matches no row is not an error.
     */
    method MarkNotificationAsRead(id: string, at: string) returns (ok: bool)
      requires Valid()
      modifies this
      ensures Valid() && ok && order == old(order)
      ensures id !in old(notes) ==> notes == old(notes)
      ensures id in old(notes) ==>
        notes == old(notes)[id := old(notes)[id].(status := Delivered, metadata := ReadMark, updatedAt := Some(at))]
    {
      if id in notes {
        notes := notes[id := notes[id].(status := Delivered, metadata := ReadMark, updatedAt := Some(at))];
      }
      ok := true;
    }

    /** `markAllNotificationsAsRead`: one update of the user's delivered rows. */
    method MarkAllNotificationsAsRead(userId: string, at: string) returns (ok: bool)
      requires Valid()
      modifies this
      ensures Valid() && ok && order == old(order)
      ensures notes.Keys == old(notes).Keys
      ensures forall k :: k in notes ==> notes[k] == MarkedRead(old(notes)[k], userId, at)
    {
      notes := map k | k in notes :: MarkedRead(notes[k], userId, at);
      ok := true;
    }

    /**
     * `sendSystemMaintenanceNotification`: a warning to every active user over the in-app
     * channel. With no active users (or no answer from the users query) it succeeds and sends
     * nothing.
     */
    method SendSystemMaintenanceNotification(message: string, scheduledTime: string, activeUsers: Option<seq<string>>,
                                             ids: seq<string>, users: map<string, Contact>, at: string) returns (ok: bool)
      requires Valid()
      requires activeUsers.Some? ==> |ids| == |activeUsers.value|
      modifies this
      ensures Valid()
      ensures (activeUsers.None? || activeUsers.value == []) ==> ok && notes == old(notes) && order == old(order)
      ensures activeUsers.Some? && activeUsers.value != [] ==>
        var reqs := MaintenanceRequests(activeUsers.value, message, scheduledTime);
        && (ok <==> Distinct(ids) && forall i :: 0 <= i < |ids| ==> ids[i] !in old(notes))
        && (ok ==> order == old(order) + ids)
        && (ok ==> forall i :: 0 <= i < |ids| ==> ids[i] in notes && notes[ids[i]] == Processed(Stored(reqs[i], ids[i]), users, at))
        && (!ok ==> notes == old(notes) && order == old(order))
    {
      if activeUsers.None? || activeUsers.value == [] {
        return true;
      }
      var reqs := MaintenanceRequests(activeUsers.value, message, scheduledTime);
      ok := SendBulkNotifications(reqs, ids, users, at);
    }
  }

  /** Each user's maintenance notice is delivered in the app, whatever their contact details. */
  lemma MaintenanceDelivered(userId: string, message: string, scheduledTime: string, id: string,
                             users: map<string, Contact>, at: string)
    ensures var r := Processed(Stored(MaintenanceRequest(userId, message, scheduledTime), id), users, at);
      r.status == Delivered && r.title == "System Maintenance" && r.userId == userId
      && r.message == message + " Scheduled for: " + scheduledTime
      && r.metadata == map["scheduledTime" := scheduledTime]
  {
  }

  /** Marking all read twice is marking all read once (at the later time). */
  lemma MarkAllIdempotent(n: Notification, userId: string, at1: string, at2: string)
    ensures MarkedRead(MarkedRead(n, userId, at1), userId, at2) == MarkedRead(n, userId, at2)
  {
  }
}
