/**
 * The bell's dropdown (src/components/notifications/NotificationDropdown.tsx):
 * the first five notifications of the store that are not archived, and the
 * click on one of them, which marks it read through the store, follows its
 * link when it has one and closes the dropdown. Navigation is returned as
 * the link to follow.
 */
module NotificationDropdown {
  import opened Common
  import opened Types
  import opened NotificationStore
  import opened MainLayout

  const RecentLimit := 5

  function NotArchived(n: Notification): bool { !n.isArchived }

  /** `notifications.filter(n => !n.isArchived).slice(0, 5)`. */
  function Recent(ns: seq<Notification>): (r: seq<Notification>)
    ensures |r| == Min(RecentLimit, CountIf(ns, NotArchived))
    ensures forall i | 0 <= i < |r| :: !r[i].isArchived
    ensures r == KeepIf(ns, NotArchived)[..|r|]
  {
    var live := KeepIf(ns, NotArchived);
    KeepIfSatisfies(ns, NotArchived);
    live[..Min(RecentLimit, |live|)]
  }

  /** Everything shown is one of the store's notifications. */
  lemma RecentFromStore(ns: seq<Notification>)
    ensures forall x | x in Recent(ns) :: x in ns
  {
    KeepIfMembers(ns, NotArchived);
    var live := KeepIf(ns, NotArchived);
    forall x | x in Recent(ns) ensures x in ns {
      assert x in live;
    }
  }

  /** The empty state ("No new notifications") is drawn exactly when every
      notification is archived. */
  lemma RecentEmptyIffAllArchived(ns: seq<Notification>)
    ensures |Recent(ns)| == 0 <==> forall i | 0 <= i < |ns| :: ns[i].isArchived
  {
    CountIfZero(ns, NotArchived);
  }

  /** A notification the dropdown shows is marked read by clicking it. */
  lemma ClickedEntryBecomesRead(ns: seq<Notification>, i: nat, now: int)
    requires i < |Recent(ns)|
    ensures var id := Recent(ns)[i].id;
            forall j | 0 <= j < |ns| && ns[j].id == id :: MarkRead(ns, id, now)[j].isRead
  {
  }

  /** `if (notification.actionUrl) navigate(notification.actionUrl)`: an absent
      or empty link is not followed. */
  function LinkToFollow(n: Notification): (r: Option<string>)
    ensures r.Some? <==> n.actionUrl.Some? && n.actionUrl.value != ""
    ensures r.Some? ==> r == n.actionUrl
  {
    if n.actionUrl.Some? && n.actionUrl.value != "" then n.actionUrl else None
  }

  /** `handleNotificationClick`: mark read in the store, follow the link, close. */
  method HandleNotificationClick(store: NotificationState, layout: LayoutState, n: Notification, now: int)
    returns (navigateTo: Option<string>)
    modifies store, layout`showNotifications
    ensures store.notifications == MarkRead(old(store.notifications), n.id, now)
    ensures store.unreadCount == old(store.unreadCount) - (if WasUnread(old(store.notifications), n.id) then 1 else 0)
    ensures store.reminderRules == old(store.reminderRules)
    ensures old(store.IdsUnique()) ==> store.IdsUnique() && (old(store.Valid()) ==> store.Valid())
    ensures !layout.showNotifications
    ensures navigateTo == LinkToFollow(n)
  {
    store.MarkAsRead(n.id, now);
    navigateTo := LinkToFollow(n);
    layout.CloseNotifications();
  }

  /** The "Mark all read" button of the dropdown header. */
  method HandleMarkAllRead(store: NotificationState, now: int)
    modifies store
    ensures store.notifications == MarkAllRead(old(store.notifications), now)
    ensures store.unreadCount == 0 && store.Valid()
    ensures store.reminderRules == old(store.reminderRules)
  {
    store.MarkAllAsRead(now);
  }
}
