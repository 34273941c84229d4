/** The notifications kept in each user's record: creating, listing, marking read and deleting. */
module NotificationActions {
  import opened Wrappers
  import opened Models
  import opened Store
  import Seqs

  /** What the store answers when `$[]` names an array the record does not have; the catch
      branch of `markAllNotificationsAsRead` passes it on. */
  const ArrayPathMissing := "The path 'notifications' must exist in the document in order to apply array updates."

  /** What the store's driver answers to an update document whose first key is not an update
      operator, such as `{ push: … }` or `{ pull: … }`; it refuses it before anything is sent. */
  const AtomicOperatorsRequired := "Update document requires atomic operators"

  /** User `u` is stored and its record has a notification list. */
  predicate HasNotificationList(users: map<UserId, User>, u: UserId)
  {
    u in users && users[u].notifications.Some?
  }

  /** The entry `createNotification` appends: unread, of type "info" unless another type is given. */
  function NewNotification(id: nat, userId: UserId, title: string, message: string, kind: Option<NotificationType>,
                           relatedTo: Option<Related>, now: Time): (n: Notification)
    ensures !n.isRead && n.id == id && n.userId == userId && n.createdAt == now
    ensures kind.None? ==> n.kind == NoteInfo
    ensures kind.Some? ==> n.kind == kind.value
  {
    Notification(id, userId, title, message, if kind.Some? then kind.value else NoteInfo, relatedTo, false, now)
  }

  /** Replaces the notification list of user `u`, creating it when it is missing, when there is
      such a user. */
  method SetNotifications(db: Database, u: UserId, ns: seq<Notification>)
    requires db.Valid()
    requires NotificationIdsUnique(ns)
    modifies db`users
    ensures db.Valid()
    ensures u !in old(db.users) ==> db.users == old(db.users)
    ensures u in old(db.users) ==> db.users == old(db.users)[u := old(db.users)[u].(notifications := Some(ns))]
  {
    if u in db.users {
      var user := db.users[u].(notifications := Some(ns));
      ReplaceUserKeepsUsersValid(db.users, u, user);
      db.users := db.users[u := user];
    }
  }

  /** `createNotification`: the entry is appended to the user's list under the fresh id `id`,
      and a missing list is created with it; when no stored user has `userId` the update matches
      nothing. The answer is a success either way. */
  method CreateNotification(db: Database, userId: UserId, title: string, message: string,
                            kind: Option<NotificationType>, relatedTo: Option<Related>, id: nat, now: Time)
    returns (r: Outcome)
    requires db.Valid()
    requires userId in db.users ==> forall n :: n in OrEmpty(db.users[userId].notifications) ==> n.id != id
    modifies db`users
    ensures db.Valid()
    ensures r == Success
    ensures userId !in old(db.users) ==> db.users == old(db.users)
    ensures userId in old(db.users) ==>
              db.users == old(db.users)[userId := old(db.users)[userId].(notifications :=
                Some(OrEmpty(old(db.users)[userId].notifications) + [NewNotification(id, userId, title, message, kind, relatedTo, now)]))]
  {
    if userId in db.users {
      var ns := OrEmpty(db.users[userId].notifications);
      var ns' := ns + [NewNotification(id, userId, title, message, kind, relatedTo, now)];
      assert forall k :: 0 <= k < |ns| ==> ns[k] in ns;
      SetNotifications(db, userId, ns');
    }
    r := Success;
  }

  /** `createNotification` as written: its update document `{ push: … }` names no operator, so
      the driver refuses it; no notification is ever stored and the answer is the driver's
      error. */
  method CreateNotificationAsWritten(db: Database, userId: UserId, title: string, message: string,
                                     kind: Option<NotificationType>, relatedTo: Option<Related>, now: Time)
    returns (r: Outcome)
    ensures r == Failure(AtomicOperatorsRequired)
  {
    r := Failure(AtomicOperatorsRequired);
  }

  /** The sort key of the newest-first comparator. */
  function NewestFirst(n: Notification): int
  {
    -(n.createdAt as int)
  }

  /** `getNotifications`: the caller's notifications, newest first; a caller with no stored
      record, or whose record has no notification list, has none. */
  function GetNotifications(users: map<UserId, User>, caller: Option<Session>): (r: Result<seq<Notification>>)
    ensures caller.None? ==> r == Err(NotLoggedIn)
    ensures caller.Some? ==> r.Ok?
    ensures caller.Some? && (caller.value.userId !in users || users[caller.value.userId].notifications.None?) ==>
              r == Ok([])
    ensures caller.Some? && caller.value.userId in users ==>
              multiset(r.value) == multiset(OrEmpty(users[caller.value.userId].notifications))
    ensures r.Ok? ==> forall i, j :: 0 <= i < j < |r.value| ==> r.value[i].createdAt >= r.value[j].createdAt
  {
    if caller.None? then Err(NotLoggedIn)
    else if caller.value.userId !in users || users[caller.value.userId].notifications.None? then Ok([])
    else Ok(Seqs.SortBy(users[caller.value.userId].notifications.value, NewestFirst))
  }

  /** The positional update `notifications.$.isRead`: the first entry with id `id` becomes read,
      and every other entry stays as it was. */
  function MarkFirst(ns: seq<Notification>, id: nat): (r: seq<Notification>)
    ensures |r| == |ns|
    ensures forall k :: 0 <= k < |ns| ==> r[k] == ns[k].(isRead := r[k].isRead)
    ensures forall k :: 0 <= k < |ns| ==>
              (r[k].isRead <==> ns[k].isRead || (ns[k].id == id && forall j :: 0 <= j < k ==> ns[j].id != id))
  {
    if ns == [] then []
    else if ns[0].id == id then [ns[0].(isRead := true)] + ns[1..]
    else [ns[0]] + MarkFirst(ns[1..], id)
  }

  /** With unique ids, marking by id makes exactly the entry with that id read. */
  lemma MarkFirstMarksTheOne(ns: seq<Notification>, id: nat)
    requires NotificationIdsUnique(ns)
    ensures forall k :: 0 <= k < |ns| ==> (MarkFirst(ns, id)[k].isRead <==> ns[k].isRead || ns[k].id == id)
  {
    var r := MarkFirst(ns, id);
    forall k | 0 <= k < |ns| && ns[k].id == id ensures r[k].isRead {
      assert forall j :: 0 <= j < k ==> ns[j].id != ns[k].id;
    }
  }

  /** `markNotificationAsRead`: a signed-in caller always gets a success; the notification is
      marked read in the caller's own list only. A record without a list matches nothing. */
  method MarkNotificationAsRead(db: Database, caller: Option<Session>, id: nat) returns (r: Outcome)
    requires db.Valid()
    modifies db`users
    ensures db.Valid()
    ensures r == Success <==> caller.Some?
    ensures caller.None? ==> r == Failure(NotLoggedIn) && db.users == old(db.users)
    ensures caller.Some? && !HasNotificationList(old(db.users), caller.value.userId) ==> db.users == old(db.users)
    ensures caller.Some? && HasNotificationList(old(db.users), caller.value.userId) ==>
              var u := caller.value.userId;
              db.users == old(db.users)[u := old(db.users)[u].(notifications :=
                Some(MarkFirst(old(db.users)[u].notifications.value, id)))]
  {
    if caller.None? {
      return Failure(NotLoggedIn);
    }
    var u := caller.value.userId;
    if HasNotificationList(db.users, u) {
      var ns := db.users[u].notifications.value;
      SetNotifications(db, u, MarkFirst(ns, id));
    }
    return Success;
  }

  /** The update `notifications.$[].isRead`: every entry becomes read. */
  function MarkAll(ns: seq<Notification>): (r: seq<Notification>)
    ensures |r| == |ns|
    ensures forall k :: 0 <= k < |ns| ==> r[k] == ns[k].(isRead := true)
  {
    seq(|ns|, k requires 0 <= k < |ns| => ns[k].(isRead := true))
  }

  /** After marking all, nothing is unread, and marking all again changes nothing. */
  lemma MarkAllIdempotent(ns: seq<Notification>)
    ensures forall n :: n in MarkAll(ns) ==> n.isRead
    ensures MarkAll(MarkAll(ns)) == MarkAll(ns)
  {
  }

  /** `markAllNotificationsAsRead`: every notification of the caller becomes read. The update
      `notifications.$[]` fails on a record that has no notification list, and the caller gets
      the failure. */
  method MarkAllNotificationsAsRead(db: Database, caller: Option<Session>) returns (r: Outcome)
    requires db.Valid()
    modifies db`users
    ensures db.Valid()
    ensures r == Success <==>
              caller.Some? && (caller.value.userId !in old(db.users) || HasNotificationList(old(db.users), caller.value.userId))
    ensures caller.None? ==> r == Failure(NotLoggedIn) && db.users == old(db.users)
    ensures caller.Some? && caller.value.userId in old(db.users) && !HasNotificationList(old(db.users), caller.value.userId) ==>
              r == Failure(ArrayPathMissing)
    ensures caller.Some? && !HasNotificationList(old(db.users), caller.value.userId) ==> db.users == old(db.users)
    ensures caller.Some? && HasNotificationList(old(db.users), caller.value.userId) ==>
              var u := caller.value.userId;
              db.users == old(db.users)[u := old(db.users)[u].(notifications :=
                Some(MarkAll(old(db.users)[u].notifications.value)))]
  {
    if caller.None? {
      return Failure(NotLoggedIn);
    }
    var u := caller.value.userId;
    if u !in db.users {
      return Success;
    }
    if db.users[u].notifications.None? {
      return Failure(ArrayPathMissing);
    }
    SetNotifications(db, u, MarkAll(db.users[u].notifications.value));
    return Success;
  }

  function HasOtherId(id: nat): Notification -> bool
  {
    (n: Notification) => n.id != id
  }

  /** The pull of `deleteNotification`: every entry with id `id` goes, the others stay in order. */
  function Without(ns: seq<Notification>, id: nat): (r: seq<Notification>)
    ensures forall n :: n in r <==> n in ns && n.id != id
  {
    Seqs.Filter(ns, HasOtherId(id))
  }

  /** Removing entries keeps the remaining ids unique. */
  lemma {:induction false} FilterKeepsIdsUnique(ns: seq<Notification>, p: Notification -> bool)
    requires NotificationIdsUnique(ns)
    ensures NotificationIdsUnique(Seqs.Filter(ns, p))
  {
    if ns != [] {
      var tail := ns[1..];
      assert NotificationIdsUnique(tail) by {
        forall i, j | 0 <= i < j < |tail| ensures tail[i].id != tail[j].id {
          assert tail[i] == ns[i + 1] && tail[j] == ns[j + 1];
        }
      }
      FilterKeepsIdsUnique(tail, p);
      var rest := Seqs.Filter(tail, p);
      if p(ns[0]) {
        var r := [ns[0]] + rest;
        forall i, j | 0 <= i < j < |r| ensures r[i].id != r[j].id {
          if i == 0 {
            assert r[j] in tail;
            var k :| 0 <= k < |tail| && tail[k] == r[j];
            assert ns[k + 1] == r[j];
          } else {
            assert r[i] == rest[i - 1] && r[j] == rest[j - 1];
          }
        }
      }
    }
  }

  /** `deleteNotification`: a signed-in caller always gets a success; the entries with the given
      id leave the caller's own list. A record without a list stays without one. */
  method DeleteNotification(db: Database, caller: Option<Session>, id: nat) returns (r: Outcome)
    requires db.Valid()
    modifies db`users
    ensures db.Valid()
    ensures r == Success <==> caller.Some?
    ensures caller.None? ==> r == Failure(NotLoggedIn) && db.users == old(db.users)
    ensures caller.Some? && !HasNotificationList(old(db.users), caller.value.userId) ==> db.users == old(db.users)
    ensures caller.Some? && HasNotificationList(old(db.users), caller.value.userId) ==>
              var u := caller.value.userId;
              db.users == old(db.users)[u := old(db.users)[u].(notifications :=
                Some(Without(old(db.users)[u].notifications.value, id)))]
  {
    if caller.None? {
      return Failure(NotLoggedIn);
    }
    var u := caller.value.userId;
    if HasNotificationList(db.users, u) {
      var ns := db.users[u].notifications.value;
      FilterKeepsIdsUnique(ns, HasOtherId(id));
      SetNotifications(db, u, Without(ns, id));
    }
    return Success;
  }

  /** `deleteNotification` as written: its update document `{ pull: … }` names no operator, so
      the driver refuses it. Every signed-in caller gets the driver's error, and nothing is
      deleted. */
  method DeleteNotificationAsWritten(db: Database, caller: Option<Session>, id: nat) returns (r: Outcome)
    ensures r != Success
    ensures caller.None? ==> r == Failure(NotLoggedIn)
    ensures caller.Some? ==> r == Failure(AtomicOperatorsRequired)
  {
    if caller.None? {
      return Failure(NotLoggedIn);
    }
    return Failure(AtomicOperatorsRequired);
  }
}
