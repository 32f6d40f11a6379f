/**
 * The application shell (src/layouts/MainLayout.tsx): which sidebar groups
 * are expanded, whether the notification dropdown is open, and the unread
 * badge on the bell, which reads the notification store's counter.
 */
module MainLayout {
  import opened Common

  /** A sidebar entry: a link, or a group of links that can be expanded. */
  datatype NavItem = NavItem(name: string, href: Option<string>, children: seq<string>)

  const Navigation: seq<NavItem> := [
    NavItem("Portfolio Dashboard", Some("/"), []),
    NavItem("Projects", None, ["/projects", "/projects/new"]),
    NavItem("Users & Security", None, ["/users", "/roles", "/audit-log"]),
    NavItem("Calendar", Some("/calendar"), []),
    NavItem("Notifications", Some("/notifications"), []),
    NavItem("Reminder Rules", Some("/reminder-rules"), [])
  ]

  /** The links drawn under an entry: a group's children, only while it is expanded. */
  function ShownChildren(item: NavItem, expandedItems: seq<string>): (r: seq<string>)
    ensures |r| > 0 ==> item.name in expandedItems && r == item.children
    ensures item.name in expandedItems ==> r == item.children
  {
    if item.name in expandedItems then item.children else []
  }

  /** What the bell shows: nothing, the count, or "9+". */
  datatype Badge = NoBadge | Count(n: nat) | NinePlus

  /** `unreadCount > 0 && (unreadCount > 9 ? '9+' : unreadCount)`. */
  function BadgeFor(unreadCount: int): (r: Badge)
    ensures r == NoBadge <==> unreadCount <= 0
    ensures r == NinePlus <==> unreadCount > 9
    ensures r.Count? ==> 1 <= r.n <= 9 && r.n == unreadCount
  {
    if unreadCount <= 0 then NoBadge
    else if unreadCount > 9 then NinePlus
    else Count(unreadCount)
  }

  /** Every count from 1 to 9 is shown as itself. */
  lemma BadgeShowsSmallCounts(unreadCount: int)
    requires 1 <= unreadCount <= 9
    ensures BadgeFor(unreadCount) == Count(unreadCount)
  {
  }

  class LayoutState {
    var sidebarOpen: bool
    var expandedItems: seq<string>
    var showNotifications: bool

    constructor ()
      ensures sidebarOpen && expandedItems == [] && !showNotifications
    {
      sidebarOpen, expandedItems, showNotifications := true, [], false;
    }

    /** `toggleExpanded(name)`: expand a collapsed group, collapse an expanded one. */
    method ToggleExpanded(name: string)
      modifies this`expandedItems
      ensures expandedItems == ToggleMember(old(expandedItems), name)
      ensures name in expandedItems <==> name !in old(expandedItems)
      ensures forall other | other != name :: other in expandedItems <==> other in old(expandedItems)
      ensures Distinct(old(expandedItems)) ==> Distinct(expandedItems)
    {
      if Distinct(expandedItems) {
        ToggleMemberKeepsDistinct(expandedItems, name);
      }
      expandedItems := ToggleMember(expandedItems, name);
    }

    /** The bell button. */
    method ToggleNotifications()
      modifies this`showNotifications
      ensures showNotifications == !old(showNotifications)
    {
      showNotifications := !showNotifications;
    }

    /** The dropdown's `onClose`. */
    method CloseNotifications()
      modifies this`showNotifications
      ensures !showNotifications
    {
      showNotifications := false;
    }

    /** The close button in the sidebar. */
    method CloseSidebar()
      modifies this`sidebarOpen
      ensures !sidebarOpen
    {
      sidebarOpen := false;
    }

    /** The menu button in the header. */
    method ToggleSidebar()
      modifies this`sidebarOpen
      ensures sidebarOpen == !old(sidebarOpen)
    {
      sidebarOpen := !sidebarOpen;
    }
  }
}
