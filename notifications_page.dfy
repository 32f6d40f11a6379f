/**
 * The notifications page (src/pages/notifications/NotificationsPage.tsx).
 * Unlike the store, it keeps its own list in component state, and counts as
 * unread only what is neither read nor archived. The list shown leaves out
 * archived entries, read ones under "Show unread only", and other types when
 * a type is chosen. Its handlers rewrite the list exactly as the store's
 * actions do, so they reuse the store's functions.
 */
module NotificationsPage {
  import opened Common
  import opened Types
  import opened NotificationStore

  /** `!n.isRead && !n.isArchived`. */
  function PageUnread(n: Notification): bool { !n.isRead && !n.isArchived }

  function PageUnreadCount(ns: seq<Notification>): nat
  {
    CountIf(ns, PageUnread)
  }

  /** The body of the page's `filter`; `None` is "All Types". */
  function Visible(n: Notification, showUnreadOnly: bool, typeFilter: Option<NotificationType>): bool
  {
    !n.isArchived && !(showUnreadOnly && n.isRead) && (typeFilter.None? || n.notificationType == typeFilter.value)
  }

  function Filtered(ns: seq<Notification>, showUnreadOnly: bool, typeFilter: Option<NotificationType>): (r: seq<Notification>)
    ensures Subsequence(r, ns)
    ensures forall i | 0 <= i < |r| :: !r[i].isArchived
    ensures showUnreadOnly ==> forall i | 0 <= i < |r| :: !r[i].isRead
    ensures typeFilter.Some? ==> forall i | 0 <= i < |r| :: r[i].notificationType == typeFilter.value
  {
    KeepIfSatisfies(ns, (n: Notification) => Visible(n, showUnreadOnly, typeFilter));
    KeepIf(ns, (n: Notification) => Visible(n, showUnreadOnly, typeFilter))
  }

  /** Every entry that is not archived, of the chosen type and (under "unread
      only") unread, is listed. */
  lemma FilteredKeepsMatches(ns: seq<Notification>, showUnreadOnly: bool, typeFilter: Option<NotificationType>)
    ensures forall n | n in ns && Visible(n, showUnreadOnly, typeFilter) :: n in Filtered(ns, showUnreadOnly, typeFilter)
  {
    KeepIfMembers(ns, (n: Notification) => Visible(n, showUnreadOnly, typeFilter));
  }

  /** With no type chosen and "unread only" off, the list is every entry not archived. */
  lemma NoFilterShowsAllLive(ns: seq<Notification>)
    requires forall i | 0 <= i < |ns| :: !ns[i].isArchived
    ensures Filtered(ns, false, None) == ns
  {
  }

  /** The page's count is at most the store's notion of unread. */
  lemma {:induction false} PageUnreadAtMostUnread(ns: seq<Notification>)
    ensures PageUnreadCount(ns) <= UnreadCount(ns)
    decreases |ns|
  {
    if |ns| > 0 {
      PageUnreadAtMostUnread(ns[1..]);
      CountIfFirst(ns, PageUnread);
      UnreadCountCons(ns[0], ns[1..]);
    }
  }

  /** "Mark All Read" leaves nothing unread. */
  lemma MarkAllReadClearsPageCount(ns: seq<Notification>, now: int)
    ensures PageUnreadCount(MarkAllRead(ns, now)) == 0
  {
    var r := MarkAllRead(ns, now);
    CountIfZero(r, PageUnread);
  }

  /** The first entry with this id exists and is unread and not archived. */
  function WasPageUnread(ns: seq<Notification>, id: string): bool
  {
    match FindById(ns, NotificationId, id)
    case Some(n) => PageUnread(n)
    case None => false
  }

  lemma WasPageUnreadCons(ns: seq<Notification>, id: string)
    requires |ns| > 0
    ensures WasPageUnread(ns, id) == if ns[0].id == id then PageUnread(ns[0]) else WasPageUnread(ns[1..], id)
  {
  }

  lemma ArchiveUnknownId(ns: seq<Notification>, id: string)
    requires forall i | 0 <= i < |ns| :: ns[i].id != id
    ensures Archive(ns, id) == ns
  {
  }

  /** With unique ids, archiving lowers the page's count by one exactly when the
      entry was unread and not yet archived. */
  lemma {:induction false} ArchivePageCount(ns: seq<Notification>, id: string)
    requires UniqueIds(ns, NotificationId)
    ensures PageUnreadCount(Archive(ns, id)) == PageUnreadCount(ns) - (if WasPageUnread(ns, id) then 1 else 0)
    decreases |ns|
  {
    if |ns| > 0 {
      ArchiveCons(ns, id);
      WasPageUnreadCons(ns, id);
      UniqueIdsTail(ns, NotificationId);
      var head := if ns[0].id == id then ns[0].(isArchived := true) else ns[0];
      CountIfCons(head, Archive(ns[1..], id), PageUnread);
      CountIfFirst(ns, PageUnread);
      if ns[0].id == id {
        ArchiveUnknownId(ns[1..], id);
      } else {
        ArchivePageCount(ns[1..], id);
      }
    }
  }

  /** An archived entry disappears from the list whatever the filters. */
  lemma ArchivedNotListed(ns: seq<Notification>, id: string, showUnreadOnly: bool, typeFilter: Option<NotificationType>)
    ensures forall i | 0 <= i < |Filtered(Archive(ns, id), showUnreadOnly, typeFilter)| ::
              Filtered(Archive(ns, id), showUnreadOnly, typeFilter)[i].id != id
  {
    var a := Archive(ns, id);
    var f := Filtered(a, showUnreadOnly, typeFilter);
    SubsequenceMembers(f, a);
    forall i | 0 <= i < |f| ensures f[i].id != id {
      assert f[i] in a;
    }
  }

  class InboxState {
    var notifications: seq<Notification>
    var typeFilter: Option<NotificationType>
    var showUnreadOnly: bool

    /** The page starts from its demonstration list, given here as `initial`. */
    constructor (initial: seq<Notification>)
      ensures notifications == initial && typeFilter == None && !showUnreadOnly
    {
      notifications, typeFilter, showUnreadOnly := initial, None, false;
    }

    function Shown(): seq<Notification>
      reads this
    {
      Filtered(notifications, showUnreadOnly, typeFilter)
    }

    function UnreadShown(): nat
      reads this
    {
      PageUnreadCount(notifications)
    }

    /** "Mark All Read" is disabled when nothing is unread. */
    function MarkAllEnabled(): bool
      reads this
    {
      UnreadShown() != 0
    }

    method SetTypeFilter(t: Option<NotificationType>)
      modifies this`typeFilter
      ensures typeFilter == t
    {
      typeFilter := t;
    }

    method SetShowUnreadOnly(b: bool)
      modifies this`showUnreadOnly
      ensures showUnreadOnly == b
    {
      showUnreadOnly := b;
    }

    method MarkAsRead(id: string, now: int)
      modifies this`notifications
      ensures notifications == MarkRead(old(notifications), id, now)
    {
      notifications := MarkRead(notifications, id, now);
    }

    method MarkAllAsRead(now: int)
      modifies this`notifications
      ensures notifications == MarkAllRead(old(notifications), now)
      ensures UnreadShown() == 0 && !MarkAllEnabled()
    {
      notifications := MarkAllRead(notifications, now);
      MarkAllReadClearsPageCount(old(notifications), now);
    }

    method ArchiveNotification(id: string)
      modifies this`notifications
      ensures notifications == Archive(old(notifications), id)
      ensures forall i | 0 <= i < |Shown()| :: Shown()[i].id != id
      ensures UniqueIds(old(notifications), NotificationId) ==>
                UnreadShown() == old(UnreadShown()) - (if WasPageUnread(old(notifications), id) then 1 else 0)
    {
      if UniqueIds(notifications, NotificationId) {
        ArchivePageCount(notifications, id);
      }
      ArchivedNotListed(notifications, id, showUnreadOnly, typeFilter);
      notifications := Archive(notifications, id);
    }

    method DeleteNotification(id: string)
      modifies this`notifications
      ensures notifications == RemoveNotification(old(notifications), id)
    {
      notifications := RemoveNotification(notifications, id);
    }
  }
}
