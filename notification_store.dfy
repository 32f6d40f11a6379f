/**
 * The notification store (src/stores/notificationStore.ts): the user's
 * notifications with a cached unread counter, and the reminder rules.
 * Each action replaces the store's lists with a mapped or filtered copy;
 * the class below has those lists as fields and one method per action.
 * `new Date()` is the `now` parameter (a timestamp).
 */
module NotificationStore {
  import opened Common
  import opened Types

  // ---------------------------------------------------------------------
  // The notification list, as values
  // ---------------------------------------------------------------------

  function IsUnread(n: Notification): bool { !n.isRead }

  /** How many entries are unread. */
  function UnreadCount(ns: seq<Notification>): nat
    decreases |ns|
  {
    if |ns| == 0 then 0 else (if ns[0].isRead then 0 else 1) + UnreadCount(ns[1..])
  }

  /** ... which is `notifications.filter(n => !n.isRead).length`. */
  lemma {:induction false} UnreadCountIsFilterLength(ns: seq<Notification>)
    ensures UnreadCount(ns) == CountIf(ns, IsUnread)
    decreases |ns|
  {
    if |ns| > 0 {
      UnreadCountIsFilterLength(ns[1..]);
    }
  }

  /** The first notification with this id exists and is unread
      (`notification && !notification.isRead`). */
  function WasUnread(ns: seq<Notification>, id: string): bool
  {
    match FindById(ns, NotificationId, id)
    case Some(n) => !n.isRead
    case None => false
  }

  /** `{ ...n, isRead: true, readAt: new Date() }`. */
  function Read(n: Notification, now: int): Notification
  {
    n.(isRead := true, readAt := Some(now))
  }

  /** The list after `markAsRead(id)`: every entry with the id is read, stamped `now`. */
  function MarkRead(ns: seq<Notification>, id: string, now: int): (r: seq<Notification>)
    ensures |r| == |ns|
    ensures forall i | 0 <= i < |ns| ::
              if ns[i].id == id then r[i].isRead && r[i].readAt == Some(now) &&
                                     r[i].(isRead := ns[i].isRead, readAt := ns[i].readAt) == ns[i]
              else r[i] == ns[i]
  {
    UpdateById(ns, NotificationId, id, (n: Notification) => Read(n, now))
  }

  /** The list after `markAllAsRead()`: all read; a `readAt` already set is kept. */
  function MarkAllRead(ns: seq<Notification>, now: int): (r: seq<Notification>)
    ensures |r| == |ns|
    ensures forall i | 0 <= i < |ns| ::
              r[i].isRead &&
              r[i].readAt == (if ns[i].readAt.Some? then ns[i].readAt else Some(now)) &&
              r[i].(isRead := ns[i].isRead, readAt := ns[i].readAt) == ns[i]
    ensures UnreadCount(r) == 0
    decreases |ns|
  {
    if |ns| == 0 then []
    else
      var n := ns[0];
      var rest := MarkAllRead(ns[1..], now);
      var r := [n.(isRead := true, readAt := Some(n.readAt.GetOr(now)))] + rest;
      assert r[1..] == rest;
      r
  }

  /** The list after `archiveNotification(id)`. */
  function Archive(ns: seq<Notification>, id: string): (r: seq<Notification>)
    ensures |r| == |ns|
    ensures forall i | 0 <= i < |ns| ::
              if ns[i].id == id then r[i] == ns[i].(isArchived := true) else r[i] == ns[i]
  {
    UpdateById(ns, NotificationId, id, (n: Notification) => n.(isArchived := true))
  }

  /** The list after `deleteNotification(id)`: the others, in their order. */
  function RemoveNotification(ns: seq<Notification>, id: string): (r: seq<Notification>)
    ensures forall x | x in r :: x in ns && x.id != id
    ensures forall x | x in ns && x.id != id :: x in r
    ensures forall x :: multiset(r)[x] == if x.id != id then multiset(ns)[x] else 0
    ensures Subsequence(r, ns)
  {
    RemoveByIdMembers(ns, NotificationId, id);
    RemoveById(ns, NotificationId, id)
  }

  // ---------------------------------------------------------------------
  // What each action does to the unread count
  // ---------------------------------------------------------------------

  lemma UnreadCountCons(n: Notification, ns: seq<Notification>)
    ensures UnreadCount([n] + ns) == (if n.isRead then 0 else 1) + UnreadCount(ns)
  {
    assert ([n] + ns)[1..] == ns;
  }

  /** `addNotification` puts the new entry first and counts it iff it is unread. */
  lemma AddNotificationCount(n: Notification, ns: seq<Notification>)
    ensures UnreadCount([n] + ns) == UnreadCount(ns) + (if n.isRead then 0 else 1)
    ensures ([n] + ns)[0] == n && ([n] + ns)[1..] == ns
  {
    UnreadCountCons(n, ns);
  }

  lemma MarkReadCons(ns: seq<Notification>, id: string, now: int)
    requires |ns| > 0
    ensures MarkRead(ns, id, now) ==
            [if ns[0].id == id then Read(ns[0], now) else ns[0]] + MarkRead(ns[1..], id, now)
  {
  }

  lemma ArchiveCons(ns: seq<Notification>, id: string)
    requires |ns| > 0
    ensures Archive(ns, id) ==
            [if ns[0].id == id then ns[0].(isArchived := true) else ns[0]] + Archive(ns[1..], id)
  {
  }

  lemma WasUnreadCons(ns: seq<Notification>, id: string)
    requires |ns| > 0
    ensures WasUnread(ns, id) == if ns[0].id == id then !ns[0].isRead else WasUnread(ns[1..], id)
  {
  }

  /** With unique ids, `markAsRead` lowers the true unread count by exactly the
      store's decrement. */
  lemma {:induction false} MarkReadCount(ns: seq<Notification>, id: string, now: int)
    requires UniqueIds(ns, NotificationId)
    ensures UnreadCount(MarkRead(ns, id, now)) == UnreadCount(ns) - (if WasUnread(ns, id) then 1 else 0)
    decreases |ns|
  {
    if |ns| > 0 {
      MarkReadCons(ns, id, now);
      WasUnreadCons(ns, id);
      UniqueIdsTail(ns, NotificationId);
      var head := if ns[0].id == id then Read(ns[0], now) else ns[0];
      UnreadCountCons(head, MarkRead(ns[1..], id, now));
      if ns[0].id == id {
        MarkReadUnknownId(ns[1..], id, now);
      } else {
        MarkReadCount(ns[1..], id, now);
      }
    }
  }

  /** `markAsRead` with an id no entry has changes nothing. */
  lemma MarkReadUnknownId(ns: seq<Notification>, id: string, now: int)
    requires forall i | 0 <= i < |ns| :: ns[i].id != id
    ensures MarkRead(ns, id, now) == ns && !WasUnread(ns, id)
  {
  }

  /** Without unique ids the counter drifts: two unread entries sharing an id are
      both marked read, but the store subtracts one. */
  lemma MarkReadDuplicateIdsDrift(n: Notification, now: int)
    requires !n.isRead
    ensures !UniqueIds([n, n], NotificationId)
    ensures UnreadCount([n, n]) == 2 && WasUnread([n, n], n.id)
    ensures UnreadCount(MarkRead([n, n], n.id, now)) == 0
  {
    assert [n, n] == [n] + [n] && [n] == [n] + [];
    UnreadCountCons(n, [n]);
    UnreadCountCons(n, []);
    WasUnreadCons([n, n], n.id);
    MarkReadCons([n, n], n.id, now);
    MarkReadCons([n], n.id, now);
    assert [n, n][1..] == [n];
    assert [n][1..] == [];
    var r := MarkRead([n, n], n.id, now);
    assert r == [Read(n, now), Read(n, now)];
    assert r[1..] == [Read(n, now)];
  }

  /** Marking the same id twice at the same instant is marking it once. */
  lemma MarkReadIdempotent(ns: seq<Notification>, id: string, now: int)
    ensures MarkRead(MarkRead(ns, id, now), id, now) == MarkRead(ns, id, now)
  {
    var once := MarkRead(ns, id, now);
    var twice := MarkRead(once, id, now);
    forall i | 0 <= i < |ns| ensures twice[i] == once[i] {
      assert once[i].id == ns[i].id;
    }
  }

  /** Archiving never changes how many entries are unread. */
  lemma {:induction false} ArchiveKeepsUnreadCount(ns: seq<Notification>, id: string)
    ensures UnreadCount(Archive(ns, id)) == UnreadCount(ns)
    decreases |ns|
  {
    if |ns| > 0 {
      ArchiveCons(ns, id);
      var head := if ns[0].id == id then ns[0].(isArchived := true) else ns[0];
      UnreadCountCons(head, Archive(ns[1..], id));
      ArchiveKeepsUnreadCount(ns[1..], id);
    }
  }

  lemma RemoveNotificationCons(ns: seq<Notification>, id: string)
    requires |ns| > 0
    ensures RemoveNotification(ns, id) ==
            if ns[0].id == id then RemoveNotification(ns[1..], id)
            else [ns[0]] + RemoveNotification(ns[1..], id)
  {
  }

  /** With unique ids, `deleteNotification` lowers the true unread count by exactly
      the store's decrement. */
  lemma {:induction false} DeleteCount(ns: seq<Notification>, id: string)
    requires UniqueIds(ns, NotificationId)
    ensures UnreadCount(RemoveNotification(ns, id)) == UnreadCount(ns) - (if WasUnread(ns, id) then 1 else 0)
    decreases |ns|
  {
    if |ns| > 0 {
      RemoveNotificationCons(ns, id);
      WasUnreadCons(ns, id);
      UniqueIdsTail(ns, NotificationId);
      if ns[0].id == id {
        RemoveUnknownNotification(ns[1..], id);
      } else {
        UnreadCountCons(ns[0], RemoveNotification(ns[1..], id));
        DeleteCount(ns[1..], id);
      }
    }
  }

  lemma RemoveUnknownNotification(ns: seq<Notification>, id: string)
    requires forall i | 0 <= i < |ns| :: NotificationId(ns[i]) != id
    ensures RemoveNotification(ns, id) == ns
  {
  }

  /** Marking, archiving and deleting keep ids unique. */
  lemma ActionsKeepIdsUnique(ns: seq<Notification>, id: string, now: int)
    requires UniqueIds(ns, NotificationId)
    ensures UniqueIds(MarkRead(ns, id, now), NotificationId)
    ensures UniqueIds(Archive(ns, id), NotificationId)
    ensures UniqueIds(RemoveNotification(ns, id), NotificationId)
  {
    UpdateByIdKeepsIdsUnique(ns, NotificationId, id, (n: Notification) => Read(n, now));
    UpdateByIdKeepsIdsUnique(ns, NotificationId, id, (n: Notification) => n.(isArchived := true));
    SubsequenceKeepsIdsUnique(RemoveNotification(ns, id), ns, NotificationId);
  }

  lemma MarkAllReadKeepsIdsUnique(ns: seq<Notification>, now: int)
    requires UniqueIds(ns, NotificationId)
    ensures UniqueIds(MarkAllRead(ns, now), NotificationId)
  {
    var r := MarkAllRead(ns, now);
    forall i, j | 0 <= i < j < |r| ensures NotificationId(r[i]) != NotificationId(r[j]) {
      assert r[i].id == ns[i].id && r[j].id == ns[j].id;
    }
  }

  // ---------------------------------------------------------------------
  // Reminder rules, as values
  // ---------------------------------------------------------------------

  function FlipActive(r: ReminderRule): ReminderRule { r.(isActive := !r.isActive) }

  /** The rules after `toggleReminderRule(id)`. */
  function ToggleRule(rs: seq<ReminderRule>, id: string): (r: seq<ReminderRule>)
    ensures |r| == |rs|
    ensures forall i | 0 <= i < |rs| ::
              r[i].isActive == (if rs[i].id == id then !rs[i].isActive else rs[i].isActive) &&
              r[i].(isActive := rs[i].isActive) == rs[i]
  {
    UpdateById(rs, RuleId, id, FlipActive)
  }

  /** Toggling a rule twice restores the rule list. */
  lemma ToggleRuleTwice(rs: seq<ReminderRule>, id: string)
    ensures ToggleRule(ToggleRule(rs, id), id) == rs
  {
    UpdateByIdTwice(rs, RuleId, id, FlipActive);
  }

  /** The rules after `updateReminderRule(id, updates)`; `patch` applies the spread. */
  function UpdateRule(rs: seq<ReminderRule>, id: string, patch: ReminderRule -> ReminderRule): (r: seq<ReminderRule>)
    ensures |r| == |rs|
    ensures forall i | 0 <= i < |rs| :: r[i] == if rs[i].id == id then patch(rs[i]) else rs[i]
  {
    UpdateById(rs, RuleId, id, patch)
  }

  /** The rules after `deleteReminderRule(id)`. */
  function RemoveRule(rs: seq<ReminderRule>, id: string): (r: seq<ReminderRule>)
    ensures forall x | x in r :: x in rs && x.id != id
    ensures forall x | x in rs && x.id != id :: x in r
    ensures forall x :: multiset(r)[x] == if x.id != id then multiset(rs)[x] else 0
    ensures Subsequence(r, rs)
  {
    RemoveByIdMembers(rs, RuleId, id);
    RemoveById(rs, RuleId, id)
  }

  // ---------------------------------------------------------------------
  // The store
  // ---------------------------------------------------------------------

  class NotificationState {
    var notifications: seq<Notification>
    var unreadCount: int
    var reminderRules: seq<ReminderRule>

    /** The cached counter agrees with the list. */
    predicate Valid()
      reads this
    {
      unreadCount == UnreadCount(notifications)
    }

    /** Ids are unique: the condition under which the counter stays right. */
    predicate IdsUnique()
      reads this
    {
      UniqueIds(notifications, NotificationId)
    }

    constructor ()
      ensures notifications == [] && unreadCount == 0 && reminderRules == []
      ensures Valid() && IdsUnique()
    {
      notifications, unreadCount, reminderRules := [], 0, [];
    }

    method SetNotifications(ns: seq<Notification>)
      modifies this
      ensures notifications == ns && unreadCount == UnreadCount(ns)
      ensures reminderRules == old(reminderRules)
      ensures Valid()
    {
      notifications := ns;
      unreadCount := UnreadCount(ns);
    }

    method AddNotification(n: Notification)
      modifies this
      ensures notifications == [n] + old(notifications)
      ensures unreadCount == old(unreadCount) + (if n.isRead then 0 else 1)
      ensures reminderRules == old(reminderRules)
      ensures old(Valid()) ==> Valid()
      ensures old(IdsUnique()) && (forall i | 0 <= i < |old(notifications)| :: old(notifications)[i].id != n.id)
              ==> IdsUnique()
    {
      AddNotificationCount(n, notifications);
      ghost var before := notifications;
      notifications := [n] + notifications;
      unreadCount := unreadCount + (if n.isRead then 0 else 1);
      if UniqueIds(before, NotificationId) && forall i | 0 <= i < |before| :: before[i].id != n.id {
        forall i, j | 0 <= i < j < |notifications|
          ensures NotificationId(notifications[i]) != NotificationId(notifications[j])
        {
          if i > 0 {
            assert NotificationId(before[i - 1]) != NotificationId(before[j - 1]);
          } else {
            assert notifications[j] == before[j - 1];
          }
        }
      }
    }

    method MarkAsRead(id: string, now: int)
      modifies this
      ensures notifications == MarkRead(old(notifications), id, now)
      ensures unreadCount == old(unreadCount) - (if WasUnread(old(notifications), id) then 1 else 0)
      ensures reminderRules == old(reminderRules)
      ensures old(IdsUnique()) ==> IdsUnique() && (old(Valid()) ==> Valid())
    {
      if IdsUnique() {
        MarkReadCount(notifications, id, now);
        ActionsKeepIdsUnique(notifications, id, now);
      }
      unreadCount := unreadCount - (if WasUnread(notifications, id) then 1 else 0);
      notifications := MarkRead(notifications, id, now);
    }

    method MarkAllAsRead(now: int)
      modifies this
      ensures notifications == MarkAllRead(old(notifications), now)
      ensures unreadCount == 0
      ensures reminderRules == old(reminderRules)
      ensures Valid()
      ensures old(IdsUnique()) ==> IdsUnique()
    {
      if IdsUnique() {
        MarkAllReadKeepsIdsUnique(notifications, now);
      }
      notifications := MarkAllRead(notifications, now);
      unreadCount := 0;
    }

    method ArchiveNotification(id: string)
      modifies this
      ensures notifications == Archive(old(notifications), id)
      ensures unreadCount == old(unreadCount) && reminderRules == old(reminderRules)
      ensures old(Valid()) ==> Valid()
      ensures old(IdsUnique()) ==> IdsUnique()
    {
      ArchiveKeepsUnreadCount(notifications, id);
      if IdsUnique() {
        ActionsKeepIdsUnique(notifications, id, 0);
      }
      notifications := Archive(notifications, id);
    }

    method DeleteNotification(id: string)
      modifies this
      ensures notifications == RemoveNotification(old(notifications), id)
      ensures unreadCount == old(unreadCount) - (if WasUnread(old(notifications), id) then 1 else 0)
      ensures reminderRules == old(reminderRules)
      ensures old(IdsUnique()) ==> IdsUnique() && (old(Valid()) ==> Valid())
    {
      if IdsUnique() {
        DeleteCount(notifications, id);
        ActionsKeepIdsUnique(notifications, id, 0);
      }
      unreadCount := unreadCount - (if WasUnread(notifications, id) then 1 else 0);
      notifications := RemoveNotification(notifications, id);
    }

    method SetReminderRules(rs: seq<ReminderRule>)
      modifies this
      ensures reminderRules == rs
      ensures notifications == old(notifications) && unreadCount == old(unreadCount)
    {
      reminderRules := rs;
    }

    method AddReminderRule(rule: ReminderRule)
      modifies this
      ensures reminderRules == old(reminderRules) + [rule]
      ensures notifications == old(notifications) && unreadCount == old(unreadCount)
    {
      reminderRules := reminderRules + [rule];
    }

    method UpdateReminderRule(id: string, patch: ReminderRule -> ReminderRule)
      modifies this
      ensures reminderRules == UpdateRule(old(reminderRules), id, patch)
      ensures notifications == old(notifications) && unreadCount == old(unreadCount)
    {
      reminderRules := UpdateRule(reminderRules, id, patch);
    }

    method DeleteReminderRule(id: string)
      modifies this
      ensures reminderRules == RemoveRule(old(reminderRules), id)
      ensures notifications == old(notifications) && unreadCount == old(unreadCount)
    {
      reminderRules := RemoveRule(reminderRules, id);
    }

    method ToggleReminderRule(id: string)
      modifies this
      ensures reminderRules == ToggleRule(old(reminderRules), id)
      ensures notifications == old(notifications) && unreadCount == old(unreadCount)
    {
      reminderRules := ToggleRule(reminderRules, id);
    }
  }
}
