# Project portfolio front end: a Dafny model

This project models the client-side logic of a React single-page application for
project-portfolio management. It covers:

- **The stores** (`src/stores/*.ts`, zustand), modelled as classes whose fields the methods reassign:
  - the notification inbox, with its cached unread count and the reminder rules;
  - the project collections (projects, tasks, risks, issues, change requests, milestones, deliverables), the current project and the list filters;
  - the signed-in session and its permission lookups.
- **The generic table** (`src/components/ui/DataTable.tsx`):
  - the sort comparator, which puts missing values last, and the sort-toggle state;
  - page count, page slicing and page-button clamping.
- **The progress bars**: the percentage clamp and the automatic colour.
- **The notification dropdown and the main layout**: the recent list, the click handler, the expanded sidebar groups and the unread badge.
- **The pages**, one Dafny module per page:
  - notifications and reminder rules;
  - calendar, milestones and deliverables;
  - issues, risks and change requests;
  - the Kanban board, the task and project lists and project set-up;
  - the portfolio and project dashboards;
  - roles, users and the audit log.

  For each page the model covers its search and filters, counters, classification thresholds, action menus and state transitions.

## How the pieces are modelled

- **Layout.** There is one Dafny module per source file. `Types` holds the record shapes of `src/types/index.ts`. `Common` holds the shared list operations:
  - the order-preserving filter `KeepIf` and the `Subsequence` relation;
  - `CountIf` and `SumOf`;
  - update and removal by id;
  - membership toggles;
  - case-insensitive substring search;
  - `Math.round` in exact arithmetic.
- **State.** Each store is a `class`. Each action is a `method` whose `ensures` gives the new state as a function of the old one. Each store's invariant is a `Valid()` predicate, and each method's `ensures` says when the method preserves it. The invariants are:
  - the cached unread count equals the number of unread notifications;
  - ids are unique.
- **Page state.** Local `useState` state is a small class in the page's module:
  - an open menu;
  - expanded items;
  - the board's dragged card;
  - the notifications page's own list.
- **Pure code.** Filters, counters and thresholds are functions with named results. Their properties are stated as `ensures` clauses and lemmas.
- **Calendar.** The calendar grid is built by a `while` loop, as in the source, over integer day numbers. Day 0 is a Sunday.
- **Clock and dates.** Every date is an integer: a day number, or a timestamp where the source stores a `Date`. "Now" is a parameter. `differenceInDays` and `differenceInHours` results are inputs.
- **Empty string filters.** The source uses `''` to mean "no filter" for a status or type. This is `None` of an `Option`. Free-text filters (region, audit module and action) stay strings, and `""` still means any.
- **Division.**
  - `Math.round(x / y)` is computed exactly: the nearest integer, with halves rounded up.
  - A division by zero, which gives `NaN` or `Infinity` in the source, is `None`.
  - Comparisons with `0.9` and `0.25` are rewritten in integers, for example `10 * actual > 9 * budget`.
- **SPI and CPI** are `real`s.

## Model

| member | source | states |
|---|---|---|
| Common.RoundedPercent | src/components/ui/ProgressBar.tsx:20 | `Math.round(value / max * 100)` in exact arithmetic: the integer nearest to the percentage, halves rounded up |
| Common.RoundedPercentMonotone | src/components/ui/ProgressBar.tsx:20 | a larger value never rounds to a smaller percentage |
| Common.RoundedPercentOfHundred | src/components/ui/ProgressBar.tsx:14-20 | of 100, a value from 0 to 100 is its own percentage |
| Common.RoundedMean | src/pages/dashboard/PortfolioDashboard.tsx:191 | `Math.round(total / count)` in exact arithmetic: the nearest integer to the mean, halves rounded up |
| Common.ToggleMenu | src/pages/projects/TasksPage.tsx:216 | the menu of a row becomes open iff it was not open, and only that row's menu can be open |
| Common.ToggleMenuTwice | src/pages/projects/TasksPage.tsx:216 | clicking the same button twice restores a closed or own-open menu, and closes one that belonged to another row |
| Common.Truncate | src/pages/projects/TasksPage.tsx:197-204 | shows the first min(limit, n) items, which with the rest make up the list, and counts the rest, positive exactly when the list is longer than the limit |
| NotificationStore.UnreadCountIsFilterLength | src/stores/notificationStore.ts:29-33 | the true unread count is the length of `notifications.filter(n => !n.isRead)` |
| NotificationStore.MarkRead | src/stores/notificationStore.ts:41-48 | same length; an entry with the id becomes read and stamped `now`, every other entry is unchanged |
| NotificationStore.MarkAllRead | src/stores/notificationStore.ts:53-61 | every entry is read, an existing `readAt` is kept and a missing one becomes `now`, and nothing is unread |
| NotificationStore.Archive | src/stores/notificationStore.ts:63-68 | same length; entries with the id get `isArchived`, the others are unchanged |
| NotificationStore.RemoveNotification | src/stores/notificationStore.ts:70-75 | exactly the entries with another id remain, in their order |
| NotificationStore.AddNotificationCount | src/stores/notificationStore.ts:35-39 | the new entry goes first, the old list follows unchanged, and the unread count grows by one iff the entry is unread |
| NotificationStore.MarkReadCount | src/stores/notificationStore.ts:41-50 | with unique ids, `markAsRead` lowers the true unread count by one exactly when the first entry with the id was unread |
| NotificationStore.MarkReadUnknownId | src/stores/notificationStore.ts:43-49 | an id no entry has changes neither the list nor the counter |
| NotificationStore.MarkReadDuplicateIdsDrift | src/stores/notificationStore.ts:43-49 | with two unread entries sharing an id, the counter drops by one while the true count drops by two, so uniqueness is needed |
| NotificationStore.MarkReadIdempotent | src/stores/notificationStore.ts:46-48 | marking the same id twice at the same instant is marking it once |
| NotificationStore.ArchiveKeepsUnreadCount | src/stores/notificationStore.ts:63-68 | archiving never changes how many entries are unread, matching the untouched counter |
| NotificationStore.DeleteCount | src/stores/notificationStore.ts:70-77 | with unique ids, deleting lowers the true unread count by one exactly when the first entry with the id was unread |
| NotificationStore.RemoveUnknownNotification | src/stores/notificationStore.ts:75 | deleting an id no entry has keeps the list |
| NotificationStore.ActionsKeepIdsUnique | src/stores/notificationStore.ts:41-78 | marking, archiving and deleting keep ids unique |
| NotificationStore.MarkAllReadKeepsIdsUnique | src/stores/notificationStore.ts:53-61 | marking all read keeps ids unique |
| NotificationStore.ToggleRule | src/stores/notificationStore.ts:97-102 | same length; rules with the id have `isActive` flipped, the others are unchanged |
| NotificationStore.ToggleRuleTwice | src/stores/notificationStore.ts:97-102 | toggling a rule twice restores the rule list |
| NotificationStore.UpdateRule | src/stores/notificationStore.ts:85-90 | same length; rules with the id are patched, the others are unchanged |
| NotificationStore.RemoveRule | src/stores/notificationStore.ts:92-95 | exactly the rules with another id remain, in their order |
| NotificationStore.NotificationState.constructor | src/stores/notificationStore.ts:24-27 | empty lists and a zero counter, which agree |
| NotificationStore.NotificationState.SetNotifications | src/stores/notificationStore.ts:29-33 | the list is replaced and the counter recomputed, so they agree |
| NotificationStore.NotificationState.AddNotification | src/stores/notificationStore.ts:35-39 | prepends the entry, adjusts the counter by its unread flag, and keeps counter agreement and (for a fresh id) unique ids |
| NotificationStore.NotificationState.MarkAsRead | src/stores/notificationStore.ts:41-51 | the list becomes `MarkRead`; the counter drops iff the first match was unread; with unique ids the counter still agrees |
| NotificationStore.NotificationState.MarkAllAsRead | src/stores/notificationStore.ts:53-61 | the list becomes `MarkAllRead` and the counter 0, which agree |
| NotificationStore.NotificationState.ArchiveNotification | src/stores/notificationStore.ts:63-68 | the list becomes `Archive`; counter and rules unchanged, agreement kept |
| NotificationStore.NotificationState.DeleteNotification | src/stores/notificationStore.ts:70-78 | the list loses the id; the counter drops iff the first match was unread; with unique ids the counter still agrees |
| NotificationStore.NotificationState.SetReminderRules | src/stores/notificationStore.ts:80 | replaces the rules, nothing else |
| NotificationStore.NotificationState.AddReminderRule | src/stores/notificationStore.ts:82-83 | appends the rule, nothing else |
| NotificationStore.NotificationState.UpdateReminderRule | src/stores/notificationStore.ts:85-90 | the rules become `UpdateRule`, nothing else |
| NotificationStore.NotificationState.DeleteReminderRule | src/stores/notificationStore.ts:92-95 | the rules become `RemoveRule`, nothing else |
| NotificationStore.NotificationState.ToggleReminderRule | src/stores/notificationStore.ts:97-102 | the rules become `ToggleRule`, nothing else |
| Common.UpdateById | src/stores/projectStore.ts:85-87 | `list.map(x => x.id === id ? patch(x) : x)`: same length, entries with the id patched, all others unchanged |
| Common.UpdateByIdTwice | src/stores/projectStore.ts:101-104 | an id-preserving self-inverse update applied twice restores the list |
| Common.UpdateByIdKeepsIdsUnique | src/stores/projectStore.ts:101-104 | an update that keeps ids keeps them unique |
| Common.RemoveById | src/stores/projectStore.ts:93-95 | `list.filter(x => x.id !== id)`: as a multiset exactly the entries with another id, in their order; an absent id keeps the list |
| Common.RemoveByIdMembers | src/stores/projectStore.ts:105 | an entry remains iff it was listed and has another id |
| ProjectStore.MergeFilters | src/stores/projectStore.ts:148-149 | `{ ...projectFilters, ...filters }`: each supplied key is overwritten, every other key kept |
| ProjectStore.MergeFiltersLaws | src/stores/projectStore.ts:148-149 | an empty update changes nothing, repeating an update changes nothing more, and two updates equal one update where the later wins key by key |
| ProjectStore.UpdateCurrent | src/stores/projectStore.ts:88-91 | the selected project gets the same update iff its id matches, and stays absent when absent |
| ProjectStore.DeleteCurrent | src/stores/projectStore.ts:96 | the selected project is cleared iff its id matches |
| ProjectStore.UpdateKeepsCurrentInSync | src/stores/projectStore.ts:85-92 | a selected project that is entry k of the list is still entry k after `updateProject`: both get the patch, or neither does |
| ProjectStore.DeleteKeepsCurrentInSync | src/stores/projectStore.ts:93-97 | after `deleteProject(id)` neither the list nor the selection has the id, and a kept selection is still listed |
| ProjectStore.MoveTask | src/stores/projectStore.ts:106-109 | same length; a task with the id gets the new status with every other field kept, other tasks are unchanged |
| ProjectStore.MoveTaskLastWins | src/stores/projectStore.ts:106-109 | two moves of one id equal the second move |
| ProjectStore.MoveTaskBack | src/stores/projectStore.ts:106-109 | with unique ids, moving a task away and back to its status restores the list |
| ProjectStore.ProjectState.constructor | src/stores/projectStore.ts:70-79 | empty lists, no selection, and the default filters |
| ProjectStore.ProjectState.SetCurrentProject | src/stores/projectStore.ts:81 | only the selection changes |
| ProjectStore.ProjectState.SetProjects | src/stores/projectStore.ts:83 | only the project list changes |
| ProjectStore.ProjectState.AddProject | src/stores/projectStore.ts:84 | appends the project at the end, nothing else |
| ProjectStore.ProjectState.UpdateProject | src/stores/projectStore.ts:85-92 | projects become `UpdateById` and the selection `UpdateCurrent`, nothing else |
| ProjectStore.ProjectState.DeleteProject | src/stores/projectStore.ts:93-97 | projects become `RemoveById` and the selection `DeleteCurrent`, nothing else |
| ProjectStore.ProjectState.SetTasks | src/stores/projectStore.ts:99 | only the task list changes |
| ProjectStore.ProjectState.AddTask | src/stores/projectStore.ts:100 | appends the task, nothing else |
| ProjectStore.ProjectState.UpdateTask | src/stores/projectStore.ts:101-104 | tasks become `UpdateById`, nothing else |
| ProjectStore.ProjectState.DeleteTask | src/stores/projectStore.ts:105 | tasks become `RemoveById`, nothing else |
| ProjectStore.ProjectState.MoveTaskTo | src/stores/projectStore.ts:106-109 | tasks become `MoveTask`, nothing else |
| ProjectStore.ProjectState.SetRisks | src/stores/projectStore.ts:111 | only the risk list changes |
| ProjectStore.ProjectState.AddRisk | src/stores/projectStore.ts:112 | appends the risk, nothing else |
| ProjectStore.ProjectState.UpdateRisk | src/stores/projectStore.ts:113-116 | risks become `UpdateById`, nothing else |
| ProjectStore.ProjectState.SetIssues | src/stores/projectStore.ts:118 | only the issue list changes |
| ProjectStore.ProjectState.AddIssue | src/stores/projectStore.ts:119 | appends the issue, nothing else |
| ProjectStore.ProjectState.UpdateIssue | src/stores/projectStore.ts:120-123 | issues become `UpdateById`, nothing else |
| ProjectStore.ProjectState.SetChangeRequests | src/stores/projectStore.ts:125 | only the change-request list changes |
| ProjectStore.ProjectState.AddChangeRequest | src/stores/projectStore.ts:126-127 | appends the change request, nothing else |
| ProjectStore.ProjectState.UpdateChangeRequest | src/stores/projectStore.ts:128-131 | change requests become `UpdateById`, nothing else |
| ProjectStore.ProjectState.SetMilestones | src/stores/projectStore.ts:133 | only the milestone list changes |
| ProjectStore.ProjectState.AddMilestone | src/stores/projectStore.ts:134 | appends the milestone, nothing else |
| ProjectStore.ProjectState.UpdateMilestone | src/stores/projectStore.ts:135-138 | milestones become `UpdateById`, nothing else |
| ProjectStore.ProjectState.SetDeliverables | src/stores/projectStore.ts:140 | only the deliverable list changes |
| ProjectStore.ProjectState.AddDeliverable | src/stores/projectStore.ts:141-142 | appends the deliverable, nothing else |
| ProjectStore.ProjectState.UpdateDeliverable | src/stores/projectStore.ts:143-146 | deliverables become `UpdateById`, nothing else |
| ProjectStore.ProjectState.SetProjectFilters | src/stores/projectStore.ts:148-149 | the filters become `MergeFilters`, nothing else |
| ProjectStore.ProjectState.ResetFilters | src/stores/projectStore.ts:61-68 | all six filters back to the empty string, nothing else |
| AuthStore.EntryFor | src/stores/authStore.ts:88 | `permissions.find(p => p.module === module)`: the position of the first entry for the module, or none exactly when no entry has it |
| AuthStore.EntryForFirst | src/stores/authStore.ts:88 | an entry for the module with none before it is the one found |
| AuthStore.Granted | src/stores/authStore.ts:86-90 | the action is granted iff the first entry for the module lists it; a module without an entry grants nothing |
| AuthStore.AdminPermissionsTable | src/stores/authStore.ts:39-45 | the administrator list grants every action except approve in reports and admin |
| AuthStore.NoPermissionsDeny | src/stores/authStore.ts:75-90 | an empty permission list denies everything |
| AuthStore.RoleIn | src/stores/authStore.ts:92-95 | false without a user, otherwise membership of the user's role |
| AuthStore.AuthState.constructor | src/stores/authStore.ts:50-53 | signed out: no user, no token, no permissions |
| AuthStore.AuthState.Login | src/stores/authStore.ts:55-68 | a non-empty e-mail signs in the demo user under that address with token `demo-token-<clock>` and the administrator permissions (approve in projects, not in reports); an empty e-mail changes nothing |
| AuthStore.AuthState.Logout | src/stores/authStore.ts:70-77 | user and token cleared, not authenticated, no permissions, so the session is consistent |
| AuthStore.AuthState.UpdateUser | src/stores/authStore.ts:79-84 | the patch applies to a signed-in user; signed out, nothing changes |
| AuthStore.AuthState.HasPermission | src/stores/authStore.ts:86-90 | granted iff the first entry for the module lists the action; denied when signed out; the administrator table after login |
| AuthStore.AuthState.HasRole | src/stores/authStore.ts:92-95 | true iff a user is signed in and their role is in the list |
| DataTable.CompareCells | src/components/ui/DataTable.tsx:56-62 | equal cells tie; a missing cell sorts after a present one in both directions; two present cells compare by `<`, negated only for descending |
| DataTable.CompareCellsAntisymmetric | src/components/ui/DataTable.tsx:58-62 | swapping the cells negates the answer |
| DataTable.CompareCellsTransitive | src/components/ui/DataTable.tsx:58-62 | "sorts no later than" is transitive |
| DataTable.RowComparatorIsPreorder | src/components/ui/DataTable.tsx:54-63 | the row comparator, with or without a sort column, is a total preorder |
| DataTable.Insert | src/components/ui/DataTable.tsx:54 | inserting adds exactly the one element to the multiset |
| DataTable.SortBy | src/components/ui/DataTable.tsx:54 | the sorted copy is a permutation of the rows |
| DataTable.InsertSorted | src/components/ui/DataTable.tsx:54 | inserting into an ordered list under a total preorder keeps it ordered |
| DataTable.SortBySorted | src/components/ui/DataTable.tsx:54 | under a total preorder the sort's result is ordered |
| DataTable.SortByAllTiesKeepsOrder | src/components/ui/DataTable.tsx:55 | a comparator that ties everything leaves the order alone |
| DataTable.InsertKeepsTieOrder | src/components/ui/DataTable.tsx:54-63 | under a total preorder, inserting an element keeps the order of each class of tied elements as if it had been put in front |
| DataTable.TieClassIsContiguous | src/components/ui/DataTable.tsx:54-63 | under a total preorder, an element sorting strictly after a member of a tie class is outside that class |
| DataTable.InsertStepKeepsFilter | src/components/ui/DataTable.tsx:54-63 | moving an insertion past the head keeps any filter's result when that filter does not keep both |
| DataTable.SortByStable | src/components/ui/DataTable.tsx:54-63 | the sort is stable: under a total preorder, the elements tied with any given one appear in the order they had |
| DataTable.SortedDataSpec | src/components/ui/DataTable.tsx:54-63 | `sortedData` is a permutation of `data`; unchanged without a sort column; ordered by the column otherwise, missing cells last |
| DataTable.SortedDataStable | src/components/ui/DataTable.tsx:54-63 | rows with equal values in the sort column keep the order they had in `data`; the rows tied with a row are exactly those with its value |
| DataTable.TotalPages | src/components/ui/DataTable.tsx:43 | `Math.ceil(n / pageSize)`: the least page count whose pages cover n rows |
| DataTable.PageRows | src/components/ui/DataTable.tsx:65-68 | page p is the rows from `(p-1)*pageSize` to `min(p*pageSize, n)`, at most `pageSize` of them |
| DataTable.FirstPagesArePrefix | src/components/ui/DataTable.tsx:65-68 | pages 1 to k, concatenated, are the first `min(k*pageSize, n)` rows |
| DataTable.PageBounds | src/components/ui/DataTable.tsx:43-68 | an existing page starts before the last row, and every page but the last ends before it |
| DataTable.PageLength | src/components/ui/DataTable.tsx:65-68 | an existing page holds the rows from its start to its end or to the last row |
| DataTable.PagesPartitionRows | src/components/ui/DataTable.tsx:43-68 | pages 1 to `totalPages` hold every row once, in order; each is non-empty and all but the last are full |
| DataTable.PastLastPageIsEmpty | src/components/ui/DataTable.tsx:43-68 | a page numbered past `totalPages` holds no row |
| DataTable.FooterMatchesPage | src/components/ui/DataTable.tsx:140-143 | "Showing a to b of n" names exactly the 1-based positions of the rows on the page |
| DataTable.PagerShownIffMoreThanAPage | src/components/ui/DataTable.tsx:138 | the pager is drawn iff there are more rows than one page holds |
| DataTable.ShrunkDataShowsNothing | src/components/ui/DataTable.tsx:65-68 | staying on page 3 after the data shrinks to 5 rows shows no row and no pager (also lines 39, 138) |
| DataTable.EffectivePage | src/components/ui/DataTable.tsx:153-163 | the page clamped into 1 to `totalPages`, and the page itself when already in range (also line 39) |
| DataTable.ShownRows | src/components/ui/DataTable.tsx:65-68 | non-empty data always shows rows, and an in-range page shows what the source shows |
| DataTable.TableState.constructor | src/components/ui/DataTable.tsx:39-41 | page 1, no sort column, ascending |
| DataTable.TableState.HandleSort | src/components/ui/DataTable.tsx:45-52 | the clicked column becomes the sort column; the direction flips when it already was, else it is ascending |
| DataTable.TableState.FirstPage | src/components/ui/DataTable.tsx:146 | page 1 |
| DataTable.TableState.PreviousPage | src/components/ui/DataTable.tsx:153 | `max(1, page-1)`, never below 1 |
| DataTable.TableState.NextPage | src/components/ui/DataTable.tsx:163 | `min(totalPages, page+1)`, staying in range |
| DataTable.TableState.LastPage | src/components/ui/DataTable.tsx:170 | page `totalPages` |
| DataTable.TableState.VisibleRows | src/components/ui/DataTable.tsx:54-68 | the rows listed are the kept `currentPage` of the sorted rows, unchecked: an existing page lists from 1 to `pageSize` rows, a page past the end lists none |
| ProgressBar.Percentage | src/components/ui/ProgressBar.tsx:20 | never above 100; for a non-zero maximum, exactly 100 once the rounded share reaches it and below that `Math.round(value / max * 100)`, for either sign of the maximum; for a zero maximum, `NaN` for 0, minus infinity for a negative value, 100 for a positive one |
| ProgressBar.PercentageOfDefaultMax | src/components/ui/ProgressBar.tsx:14-20 | with the default maximum 100, a value from 0 to 100 is shown as itself |
| ProgressBar.PercentageMonotone | src/components/ui/ProgressBar.tsx:20 | a larger value never shows a smaller percentage |
| ProgressBar.NoLowerCap | src/components/ui/ProgressBar.tsx:20 | only the top is clamped: -1 of 100 shows -1 |
| ProgressBar.ZeroMaximum | src/components/ui/ProgressBar.tsx:20-27 | a zero budget with nothing spent is `NaN` and red; anything spent of a zero budget is 100 and green |
| ProgressBar.AutoColor | src/components/ui/ProgressBar.tsx:22-27 | success from 80, primary from 50, warning from 25, danger below; the bands are disjoint and cover every value |
| ProgressBar.AutoColorMonotone | src/components/ui/ProgressBar.tsx:22-27 | more progress never gives a worse colour |
| ProgressBar.ShareColor | src/components/ui/ProgressBar.tsx:22-27 | a finite percentage gets its band's colour; `NaN` and minus infinity fail every comparison and are red |
| ProgressBar.BarAutoColor | src/components/ui/ProgressBar.tsx:20-34 | for a positive maximum, a bar at or beyond it is green, one at or below zero red; for a zero maximum, green exactly when the value is positive, red otherwise |
| ProgressBar.PercentageAtEnds | src/components/ui/ProgressBar.tsx:20 | for a positive maximum, reaching it shows 100, nothing above zero shows at most 0 |
| ProgressBar.Dual | src/components/ui/ProgressBar.tsx:76-77 | planned and actual are each computed by the same rule as the single bar, including a zero maximum, and a finite one is at most 100 |
| ProgressBar.DualIndependent | src/components/ui/ProgressBar.tsx:76-77 | each half of the dual bar depends on its own input alone |
| NotificationDropdown.Recent | src/components/notifications/NotificationDropdown.tsx:29 | the first five non-archived notifications in store order (all of them when fewer), none archived |
| NotificationDropdown.RecentFromStore | src/components/notifications/NotificationDropdown.tsx:29 | everything shown is one of the store's notifications |
| NotificationDropdown.RecentEmptyIffAllArchived | src/components/notifications/NotificationDropdown.tsx:29-55 | "No new notifications" is drawn iff every notification is archived |
| NotificationDropdown.ClickedEntryBecomesRead | src/components/notifications/NotificationDropdown.tsx:31-32 | clicking a shown entry leaves it read in the store |
| NotificationDropdown.LinkToFollow | src/components/notifications/NotificationDropdown.tsx:33-35 | the link is followed iff `actionUrl` is present and non-empty |
| NotificationDropdown.HandleNotificationClick | src/components/notifications/NotificationDropdown.tsx:31-37 | the store marks the entry read (counter adjusted, agreement kept), the link is followed when present, and the dropdown closes |
| NotificationDropdown.HandleMarkAllRead | src/components/notifications/NotificationDropdown.tsx:45 | the store marks everything read and the counter is 0 |
| Common.RemoveAll | src/layouts/MainLayout.tsx:74 | `prev.filter(i => i !== name)`: every other name stays, the name itself is gone |
| Common.ToggleMember | src/layouts/MainLayout.tsx:72-76 | the name is present afterwards iff it was absent, and no other name changes |
| Common.ToggleMemberTwice | src/layouts/MainLayout.tsx:72-76 | toggling twice restores membership, and the very list when the name was absent |
| Common.ToggleMemberKeepsDistinct | src/layouts/MainLayout.tsx:72-76 | a list without repeats keeps none |
| MainLayout.ShownChildren | src/layouts/MainLayout.tsx:112-130 | a group's links are drawn iff the group is expanded |
| MainLayout.BadgeFor | src/layouts/MainLayout.tsx:255-257 | no badge for a count of 0 or less, "9+" above 9, the count itself from 1 to 9 |
| MainLayout.BadgeShowsSmallCounts | src/layouts/MainLayout.tsx:257 | every count from 1 to 9 is shown as itself |
| MainLayout.LayoutState.constructor | src/layouts/MainLayout.tsx:64-66 | sidebar open, nothing expanded, dropdown closed |
| MainLayout.LayoutState.ToggleExpanded | src/layouts/MainLayout.tsx:72-76 | the expanded list becomes `ToggleMember`: the group flips, others are kept, no repeats appear |
| MainLayout.LayoutState.ToggleNotifications | src/layouts/MainLayout.tsx:251 | the dropdown flips |
| MainLayout.LayoutState.CloseNotifications | src/layouts/MainLayout.tsx:262 | the dropdown closes |
| MainLayout.LayoutState.CloseSidebar | src/layouts/MainLayout.tsx:100 | the sidebar closes |
| MainLayout.LayoutState.ToggleSidebar | src/layouts/MainLayout.tsx:228 | the sidebar flips |
| NotificationsPage.Filtered | src/pages/notifications/NotificationsPage.tsx:96-101 | an order-preserving sublist with nothing archived, nothing read under "unread only", and only the chosen type |
| NotificationsPage.FilteredKeepsMatches | src/pages/notifications/NotificationsPage.tsx:96-101 | every entry passing the three tests is listed |
| NotificationsPage.NoFilterShowsAllLive | src/pages/notifications/NotificationsPage.tsx:96-101 | with no type and "unread only" off, a list without archived entries is shown whole |
| NotificationsPage.PageUnreadAtMostUnread | src/pages/notifications/NotificationsPage.tsx:103 | the page's count (unread and not archived) never exceeds the store's notion of unread |
| NotificationsPage.MarkAllReadClearsPageCount | src/pages/notifications/NotificationsPage.tsx:103-115 | "Mark All Read" leaves nothing unread |
| NotificationsPage.ArchiveUnknownId | src/pages/notifications/NotificationsPage.tsx:117-121 | archiving an id no entry has keeps the list |
| NotificationsPage.ArchivePageCount | src/pages/notifications/NotificationsPage.tsx:103-121 | with unique ids, archiving lowers the page's count by one exactly when the entry was unread and not archived |
| NotificationsPage.ArchivedNotListed | src/pages/notifications/NotificationsPage.tsx:97-121 | an archived entry leaves the list whatever the filters |
| NotificationsPage.InboxState.constructor | src/pages/notifications/NotificationsPage.tsx:92-94 | the initial list, all types, "unread only" off |
| NotificationsPage.InboxState.SetTypeFilter | src/pages/notifications/NotificationsPage.tsx:93 | only the type filter changes |
| NotificationsPage.InboxState.SetShowUnreadOnly | src/pages/notifications/NotificationsPage.tsx:94 | only the "unread only" switch changes |
| NotificationsPage.InboxState.MarkAsRead | src/pages/notifications/NotificationsPage.tsx:105-109 | the list becomes the store's `MarkRead` |
| NotificationsPage.InboxState.MarkAllAsRead | src/pages/notifications/NotificationsPage.tsx:111-140 | the list becomes `MarkAllRead`; the count is 0 and the button disabled |
| NotificationsPage.InboxState.ArchiveNotification | src/pages/notifications/NotificationsPage.tsx:117-121 | the list becomes `Archive`; the entry is no longer shown; with unique ids the count drops iff it was unread |
| NotificationsPage.InboxState.DeleteNotification | src/pages/notifications/NotificationsPage.tsx:123-125 | the list loses exactly the entries with the id |
| ReminderRulesPage.DemoRulesWellFormed | src/pages/notifications/ReminderRulesPage.tsx:20-73 | the six demonstration rules have unique ids, at least one channel and a non-negative trigger offset |
| ReminderRulesPage.Stats | src/pages/notifications/ReminderRulesPage.tsx:129-146 | "Active" plus "Inactive" is "Total Rules", and "With Escalation" never exceeds it |
| ReminderRulesPage.ToggleKeepsEscalationCount | src/pages/notifications/ReminderRulesPage.tsx:96-140 | switching a rule on or off changes neither "Total Rules" nor "With Escalation", which ignores `isActive` |
| ReminderRulesPage.TriggerLabel | src/pages/notifications/ReminderRulesPage.tsx:206 | "before" only for `days_before`; every other trigger, `on_date` included, reads "after" |
| ReminderRulesPage.EditingImmediateEscalationShowsSeven | src/pages/notifications/ReminderRulesPage.tsx:363 | editing "Invoice Due Reminder", which escalates after 0 days, pre-fills 7 (also lines 48-52) |
| ReminderRulesPage.FormAfterDays | src/pages/notifications/ReminderRulesPage.tsx:363 | "Escalate After" starts at the rule's own delay when it escalates, at 7 otherwise |
| ReminderRulesPage.EditingZeroOffsetShowsSeven | src/pages/notifications/ReminderRulesPage.tsx:298 | a rule with offset 0 is edited as 7 days |
| ReminderRulesPage.FormTriggerDays | src/pages/notifications/ReminderRulesPage.tsx:298 | "Trigger Days" starts at the rule's own offset, at 7 for a new rule |
| ReminderRulesPage.FormValuesAgreeAwayFromZero | src/pages/notifications/ReminderRulesPage.tsx:298 | the corrected and written defaults agree whenever the stored value is not 0 (also line 363) |
| ReminderRulesPage.RulesPageState.constructor | src/pages/notifications/ReminderRulesPage.tsx:92 | the page opens on the demonstration rules |
| ReminderRulesPage.RulesPageState.Toggle | src/pages/notifications/ReminderRulesPage.tsx:96-100 | the rules become `ToggleRule`; total and escalation counters are kept |
| ReminderRulesPage.RulesPageState.Delete | src/pages/notifications/ReminderRulesPage.tsx:102-104 | the rules become `RemoveRule`; no rule with the id is left |
| CalendarPage.StartOfWeek | src/pages/milestones/CalendarPage.tsx:66 | `startOfWeek`: the Sunday on or before the day |
| CalendarPage.EndOfWeek | src/pages/milestones/CalendarPage.tsx:67 | `endOfWeek`: the Saturday on or after the day |
| CalendarPage.CalendarDays | src/pages/milestones/CalendarPage.tsx:64-88 | the consecutive days from the first to the last day drawn |
| CalendarPage.GenerateCalendarDays | src/pages/milestones/CalendarPage.tsx:78-88 | the while loop that pushes a day and steps to the next ends, and returns exactly `CalendarDays` |
| CalendarPage.CalendarDaysShape | src/pages/milestones/CalendarPage.tsx:64-88 | the grid runs from the Sunday on or before the 1st to the Saturday on or after month end, through consecutive days; it holds whole weeks, 28 to 42 days, and every day of the month exactly once |
| CalendarPage.FilteredEvents | src/pages/milestones/CalendarPage.tsx:69-72 | an order-preserving sublist of the chosen type; the empty filter keeps every event |
| CalendarPage.EventsForDate | src/pages/milestones/CalendarPage.tsx:74-76 | only filtered events on that day |
| CalendarPage.EventsForDateMembers | src/pages/milestones/CalendarPage.tsx:69-76 | an event is listed for a day iff it falls on that day and passes the filter |
| CalendarPage.EventInOneCell | src/pages/milestones/CalendarPage.tsx:74-76 | an event is drawn in the cell of one day only |
| CalendarPage.DayCell | src/pages/milestones/CalendarPage.tsx:186-202 | the day's first two events, then "+k more" with k the count less 2 when there are more than 2 |
| CalendarPage.GreyedDaysAtEdges | src/pages/milestones/CalendarPage.tsx:161-182 | days outside the month (greyed) lie in the first or last six cells only |
| MilestonesPage.CountdownFor | src/pages/milestones/MilestonesPage.tsx:192 | "{abs d}d overdue" exactly for a negative d, else "{d}d remaining" |
| MilestonesPage.CountdownTone | src/pages/milestones/MilestonesPage.tsx:191 | red below 0, amber from 0 to 6, grey from 7 |
| MilestonesPage.ToneMatchesCountdown | src/pages/milestones/MilestonesPage.tsx:191-192 | red exactly for an overdue caption, amber only when fewer than 7 days remain |
| MilestonesPage.DateNoteFor | src/pages/milestones/MilestonesPage.tsx:182-193 | an actual date reads "Completed", else a forecast date reads "Forecast", and only with neither is the countdown shown |
| MilestonesPage.CompletedIgnoresCountdown | src/pages/milestones/MilestonesPage.tsx:182-185 | with an actual date the note does not depend on the countdown |
| MilestonesPage.FilteredMilestones | src/pages/milestones/MilestonesPage.tsx:112-117 | an order-preserving sublist whose names contain the query in any letter case, of the chosen status and type |
| MilestonesPage.NoFilterKeepsAll | src/pages/milestones/MilestonesPage.tsx:112-117 | an empty search with no filters lists every milestone |
| MilestonesPage.FilteredKeepsMatches | src/pages/milestones/MilestonesPage.tsx:112-117 | every matching milestone is listed |
| MilestonesPage.Stats | src/pages/milestones/MilestonesPage.tsx:260-262 | "Achieved" plus "At Risk" never exceeds "Total" |
| MilestonesPage.PaymentValueAppend | src/pages/milestones/MilestonesPage.tsx:263 | the payment value of two lists is the sum of their values |
| MilestonesPage.PaymentValueOfOne | src/pages/milestones/MilestonesPage.tsx:263 | a milestone adds its amount (a missing one as 0) when it is a payment milestone, and nothing otherwise |
| MilestonesPage.PaymentValueNonNegative | src/pages/milestones/MilestonesPage.tsx:263 | with no negative amounts the total is never negative |
| DeliverablesPage.IsOverdue | src/pages/milestones/DeliverablesPage.tsx:160-161 | overdue iff the due date has passed and the deliverable is not accepted |
| DeliverablesPage.DueNote | src/pages/milestones/DeliverablesPage.tsx:167-170 | no countdown for an accepted deliverable; otherwise "overdue" and red exactly when overdue, amber when fewer than 7 days remain |
| DeliverablesPage.AcceptedNeverOverdue | src/pages/milestones/DeliverablesPage.tsx:161-167 | an accepted deliverable is never overdue and shows no countdown |
| DeliverablesPage.DueNoteIsMilestoneCountdown | src/pages/milestones/DeliverablesPage.tsx:167-170 | for any other status the line and its colour are the milestones page's countdown |
| DeliverablesPage.DialogActions | src/pages/milestones/DeliverablesPage.tsx:290-315 | "Cancel" always; "Submit for Review" iff in progress; "Accept" and "Reject" together iff submitted; "Add Deliverable" iff creating |
| DeliverablesPage.DialogOffersOneKindOfDecision | src/pages/milestones/DeliverablesPage.tsx:301-315 | submitting, deciding and adding are never offered together |
| DeliverablesPage.FilteredDeliverables | src/pages/milestones/DeliverablesPage.tsx:109-113 | an order-preserving sublist whose names contain the query in any letter case, of the chosen status |
| DeliverablesPage.NoFilterKeepsAll | src/pages/milestones/DeliverablesPage.tsx:109-113 | an empty search with no status lists every deliverable |
| DeliverablesPage.FilteredKeepsMatches | src/pages/milestones/DeliverablesPage.tsx:109-113 | every matching deliverable is listed |
| DeliverablesPage.Stats | src/pages/milestones/DeliverablesPage.tsx:231-234 | the three status counters never add up to more than "Total" |
| DeliverablesPage.ThreeStatusesFit | src/pages/milestones/DeliverablesPage.tsx:232-234 | no deliverable is counted under two statuses |
| IssuesPage.SlaStatusOf | src/pages/risks/IssuesPage.tsx:104-110 | met iff resolved or closed; otherwise breached iff the deadline has passed, at risk iff under a quarter of the SLA hours remain, on track otherwise |
| IssuesPage.SlaStatusMonotone | src/pages/risks/IssuesPage.tsx:104-110 | more hours remaining never gives a worse SLA status |
| IssuesPage.DoneIsMet | src/pages/risks/IssuesPage.tsx:105 | a resolved or closed issue is met whatever the clock says |
| IssuesPage.SlaCaptionOf | src/pages/risks/IssuesPage.tsx:160-176 | "Met" iff met; "{abs h}h overdue" iff breached; "{h}h left" otherwise |
| IssuesPage.FilteredIssues | src/pages/risks/IssuesPage.tsx:97-102 | an order-preserving sublist whose titles contain the query in any letter case, of the chosen status and priority |
| IssuesPage.NoFilterKeepsAll | src/pages/risks/IssuesPage.tsx:97-102 | an empty search with no filters lists every issue |
| IssuesPage.FilteredKeepsMatches | src/pages/risks/IssuesPage.tsx:97-102 | every matching issue is listed |
| IssuesPage.Stats | src/pages/risks/IssuesPage.tsx:231-235 | "Open", "Escalated" and "Resolved" never add up to more than the issues, nor do "SLA Breached" and "Resolved" |
| IssuesPage.StatusCountersFit | src/pages/risks/IssuesPage.tsx:232-235 | no issue is counted as open, escalated or resolved twice |
| IssuesPage.BreachedNotResolved | src/pages/risks/IssuesPage.tsx:232-235 | a breached issue is never also counted as resolved (also line 105) |
| RisksPage.ProbabilityValue | src/pages/risks/RisksPage.tsx:75-81 | each probability level's value lies between 1 and 5 |
| RisksPage.ImpactValue | src/pages/risks/RisksPage.tsx:83-89 | each impact level's value lies between 1 and 5 |
| RisksPage.ScalesAreOneToFive | src/pages/risks/RisksPage.tsx:75-89 | both scales list five levels valued 1 to 5 in increasing order, and each level sits at its value's place |
| RisksPage.ValuesIdentifyLevels | src/pages/risks/RisksPage.tsx:75-89 | no two levels of a scale share a value |
| RisksPage.ScoreColor | src/pages/risks/RisksPage.tsx:113-118 | danger from 15, orange from 10, warning from 5, success below; disjoint bands covering every score (also lines 232-235) |
| RisksPage.ScoreColorMonotone | src/pages/risks/RisksPage.tsx:113-118 | a higher score never gets a milder colour |
| RisksPage.MatrixScore | src/pages/risks/RisksPage.tsx:223-226 | `(5 - pIdx) * (iIdx + 1)` is the row's probability value times the column's impact value, between 1 and 25 |
| RisksPage.MatrixCorners | src/pages/risks/RisksPage.tsx:223-236 | the top-right cell scores 25 and is red, the bottom-left scores 1 and is green |
| RisksPage.CellLabel | src/pages/risks/RisksPage.tsx:238 | a cell is blank iff its count is 0, and otherwise shows the count |
| RisksPage.DemoRisksScoredConsistently | src/pages/risks/RisksPage.tsx:17-73 | every demonstration risk's score is its probability value times its impact value |
| RisksPage.ScoreOnlyCountsSharedProducts | src/pages/risks/RisksPage.tsx:223-227 | a Medium/Major risk (score 12) is counted both in its own cell and in High/Moderate, which also scores 12 |
| RisksPage.CellOf | src/pages/risks/RisksPage.tsx:223-226 | the row and column whose labels are the risk's probability and impact |
| RisksPage.RiskInExactlyOneCell | src/pages/risks/RisksPage.tsx:223-226 | a risk belongs to a cell iff that cell is its own, so to exactly one |
| RisksPage.CellCountAtMostAsWritten | src/pages/risks/RisksPage.tsx:226-227 | for consistently scored risks, the per-cell count never exceeds the count by score |
| RisksPage.FilteredRisks | src/pages/risks/RisksPage.tsx:107-111 | an order-preserving sublist whose titles contain the query in any letter case, of the chosen status |
| RisksPage.NoFilterKeepsAll | src/pages/risks/RisksPage.tsx:107-111 | an empty search with no status lists every risk |
| RisksPage.FilteredKeepsMatches | src/pages/risks/RisksPage.tsx:107-111 | every matching risk is listed |
| ChangeRequestsPage.FilteredChanges | src/pages/risks/ChangeRequestsPage.tsx:102-106 | an order-preserving sublist whose titles contain the query in any letter case, of the chosen status |
| ChangeRequestsPage.NoFilterKeepsAll | src/pages/risks/ChangeRequestsPage.tsx:102-106 | an empty search with no status lists every change request |
| ChangeRequestsPage.FilteredKeepsMatches | src/pages/risks/ChangeRequestsPage.tsx:102-106 | every matching change request is listed |
| ChangeRequestsPage.TotalsAppend | src/pages/risks/ChangeRequestsPage.tsx:108-114 | the cost and schedule totals of a list are the totals of its parts added |
| ChangeRequestsPage.TotalsOfOne | src/pages/risks/ChangeRequestsPage.tsx:108-114 | one request contributes its cost and days exactly when it is approved or implemented, else nothing |
| ChangeRequestsPage.PendingChangesDoNotCount | src/pages/risks/ChangeRequestsPage.tsx:108-114 | adding a request that is neither approved nor implemented leaves both totals unchanged |
| ChangeRequestsPage.PendingIsSubmittedPlusUnderReview | src/pages/risks/ChangeRequestsPage.tsx:257 | "Pending Review" is the number submitted plus the number under review |
| ChangeRequestsPage.PendingAndCountedDisjoint | src/pages/risks/ChangeRequestsPage.tsx:108-114 | no request is both pending and counted in the totals, so the two counts add up to at most the list's length (also line 257) |
| ChangeRequestsPage.ImpactLookOf | src/pages/risks/ChangeRequestsPage.tsx:152-165 | a "+" sign and red text exactly for a positive impact, green otherwise (also lines 264-268, 275-280) |
| ChangeRequestsPage.NoIncreaseLooksAlike | src/pages/risks/ChangeRequestsPage.tsx:152-165 | a saving and no change look the same: no sign, green |
| ChangeRequestsPage.DialogActions | src/pages/risks/ChangeRequestsPage.tsx:335-354 | Cancel first; Approve and Reject together exactly for a request under review; "Submit for Approval" exactly for a draft; "Create Request" exactly when nothing is selected |
| ChangeRequestsPage.NonActionableRequestOnlyCloses | src/pages/risks/ChangeRequestsPage.tsx:335-354 | a submitted, approved, rejected or implemented request offers only Cancel |
| KanbanPage.TasksByStatus | src/pages/projects/KanbanPage.tsx:125-126 | an order-preserving sublist of the tasks, all of the given status |
| KanbanPage.TasksByStatusMembers | src/pages/projects/KanbanPage.tsx:125-126 | a task is in a column iff it is on the board and has that column's status |
| KanbanPage.TaskInAtMostOneColumn | src/pages/projects/KanbanPage.tsx:86-126 | no task is drawn in two columns, and a task under review is drawn in none, since the board has no Review column |
| KanbanPage.ColumnCountsAccountForTasks | src/pages/projects/KanbanPage.tsx:125-161 | the five column badges plus the tasks under review add up to the number of tasks (also lines 86-92) |
| KanbanPage.DroppedTaskLandsInColumn | src/pages/projects/KanbanPage.tsx:114-126 | after a drop on a column, the dropped task is drawn in that column |
| KanbanPage.BoardState.constructor | src/pages/projects/KanbanPage.tsx:103-104 | the board starts with the given tasks and no card held |
| KanbanPage.BoardState.DragStart | src/pages/projects/KanbanPage.tsx:106-108 | the card picked up is the one held |
| KanbanPage.BoardState.Drop | src/pages/projects/KanbanPage.tsx:114-123 | with a card held (a non-empty id), that task takes the column's status and the hand is emptied; otherwise nothing changes; the list keeps its length, ids and order, and every other task is untouched |
| KanbanPage.BoardState.Column | src/pages/projects/KanbanPage.tsx:125-147 | every card of a column has that column's status |
| TasksPage.FilteredTasks | src/pages/projects/TasksPage.tsx:104-109 | an order-preserving sublist whose titles contain the query in any letter case, of the chosen status and priority |
| TasksPage.NoFilterKeepsAll | src/pages/projects/TasksPage.tsx:104-109 | an empty search with no filters lists every task |
| TasksPage.FilteredKeepsMatches | src/pages/projects/TasksPage.tsx:104-109 | every matching task is listed |
| TasksPage.SearchFindsOwnTitle | src/pages/projects/TasksPage.tsx:104-105 | searching for a task's own title finds it |
| TasksPage.TagCell | src/pages/projects/TasksPage.tsx:197-204 | shows the first min(2, n) tags, which with the rest make up the tag list, and "+{n - 2}" exactly when there are more than two |
| TasksPage.Stats | src/pages/projects/TasksPage.tsx:267-271 | the total is the number of tasks, the other three count the tasks in progress, blocked and done, and those three never exceed the total |
| TasksPage.BlockedAlert | src/pages/projects/TasksPage.tsx:320-327 | the banner shows exactly when some task is blocked, and then shows the "Blocked" counter, which is positive |
| TasksPage.TaskListState.constructor | src/pages/projects/TasksPage.tsx:101-102 | no menu open and no task selected |
| TasksPage.TaskListState.ToggleActions | src/pages/projects/TasksPage.tsx:216 | the row's menu becomes open iff it was not open before |
| TasksPage.TaskListState.Edit | src/pages/projects/TasksPage.tsx:224-227 | "Edit" selects the row's task and closes the menu |
| ProjectsPage.FilteredProjects | src/pages/projects/ProjectsPage.tsx:90-98 | an order-preserving sublist whose name, code or customer contains the query in any letter case, of the chosen stage and status |
| ProjectsPage.NoFilterKeepsAll | src/pages/projects/ProjectsPage.tsx:90-98 | an empty search with no filters lists every project |
| ProjectsPage.FilteredKeepsMatches | src/pages/projects/ProjectsPage.tsx:90-98 | every matching project is listed |
| ProjectsPage.SearchByCodeFindsProject | src/pages/projects/ProjectsPage.tsx:91-93 | searching for a project's own code finds it |
| ProjectsPage.FiltersOnlyNarrow | src/pages/projects/ProjectsPage.tsx:95 | choosing a stage only removes projects from the unfiltered-by-stage list |
| ProjectsPage.ProjectsPageState.constructor | src/pages/projects/ProjectsPage.tsx:88 | no menu open |
| ProjectsPage.ProjectsPageState.ToggleActions | src/pages/projects/ProjectsPage.tsx:184 | the row's menu becomes open iff it was not open before |
| ProjectSetupPage.IsNew | src/pages/projects/ProjectSetupPage.tsx:83 | the page creates a project iff the route has no id, an empty one, or "new" |
| ProjectSetupPage.SetupState.constructor | src/pages/projects/ProjectSetupPage.tsx:86 | "wbs-1" and "wbs-2" start expanded, with no id twice |
| ProjectSetupPage.SetupState.ToggleWbsExpand | src/pages/projects/ProjectSetupPage.tsx:89-93 | the id becomes expanded iff it was not, every other id keeps its state, and a list without repeats stays without repeats |
| ProjectSetupPage.RowOf | src/pages/projects/ProjectSetupPage.tsx:95-118 | the row carries the item's id, code and level; no toggle exactly for an item without children, an open chevron exactly for an expanded item with children |
| ProjectSetupPage.RowsIndentByDepth | src/pages/projects/ProjectSetupPage.tsx:105-151 | at least one row per item, every row at least as deep as its list and indented `depth * 24 + 16` pixels |
| ProjectSetupPage.RowsAppend | src/pages/projects/ProjectSetupPage.tsx:151 | the rows of two lists one after the other are the rows of their concatenation (also line 319) |
| ProjectSetupPage.CollapsedShowsTopLevel | src/pages/projects/ProjectSetupPage.tsx:151 | with nothing expanded, exactly the top-level items are drawn, in order (also line 319) |
| ProjectSetupPage.TopLevelAlwaysDrawn | src/pages/projects/ProjectSetupPage.tsx:319 | every top-level item's row is drawn whatever is expanded |
| ProjectSetupPage.DemoRowsOnOpening | src/pages/projects/ProjectSetupPage.tsx:17-78 | on opening, the demonstration breakdown draws 1.0, 1.1, 1.2, 2.0, 2.1, 3.0, 4.0 (also lines 86, 319) |
| PortfolioDashboard.FilteredProjects | src/pages/dashboard/PortfolioDashboard.tsx:182-187 | an order-preserving sublist of the cards whose names contain the query in any letter case, in the chosen region (empty means any) and stage |
| PortfolioDashboard.NoFilterKeepsAll | src/pages/dashboard/PortfolioDashboard.tsx:182-187 | an empty search with no filters shows every card |
| PortfolioDashboard.FilteredKeepsMatches | src/pages/dashboard/PortfolioDashboard.tsx:182-187 | every matching project's card is shown |
| PortfolioDashboard.AvgCompletion | src/pages/dashboard/PortfolioDashboard.tsx:191 | no figure (NaN) exactly for an empty list; otherwise the mean of the completion percentages rounded half up |
| PortfolioDashboard.AvgCompletionIsAPercentage | src/pages/dashboard/PortfolioDashboard.tsx:191-222 | when every project lies between 0 and 100 percent, so does the average |
| PortfolioDashboard.PercentSumBounded | src/pages/dashboard/PortfolioDashboard.tsx:191 | the completion percentages add up to between 0 and 100 per project |
| PortfolioDashboard.Kpis | src/pages/dashboard/PortfolioDashboard.tsx:189-241 | the active, on-track and high-risk counts never exceed the number of projects; the average is the rounded mean; the figures take the whole list, never the filtered one |
| PortfolioDashboard.KpiSumsAppend | src/pages/dashboard/PortfolioDashboard.tsx:189-241 | the budget, spending and risk totals and the high-risk count of a list are those of its parts added |
| PortfolioDashboard.BudgetBarIsDanger | src/pages/dashboard/PortfolioDashboard.tsx:324 | the budget bar is red exactly when more than 90% of the budget is spent |
| PortfolioDashboard.BudgetBarBounds | src/pages/dashboard/PortfolioDashboard.tsx:324 | overspending a non-negative budget always turns the bar red; spending at most 90% never does |
| PortfolioDashboard.IndexTone | src/pages/dashboard/PortfolioDashboard.tsx:332-338 | SPI and CPI are green from 1 up and red below |
| PortfolioDashboard.RisksTone | src/pages/dashboard/PortfolioDashboard.tsx:344 | the risk figure is red exactly above 5 |
| PortfolioDashboard.IssuesTone | src/pages/dashboard/PortfolioDashboard.tsx:350 | the issue figure is amber exactly above 3 |
| PortfolioDashboard.HighRiskCountsRedCells | src/pages/dashboard/PortfolioDashboard.tsx:241 | "{n} projects high risk" is exactly the number of cards whose risk figure is red (also line 344) |
| ProjectDashboard.ProgressStatus | src/pages/dashboard/ProjectDashboard.tsx:135 | good exactly from 50 percent complete, a warning below |
| ProjectDashboard.IndexStatus | src/pages/dashboard/ProjectDashboard.tsx:142-149 | SPI and CPI cards: good exactly from 1, a warning exactly from 0.9 below 1, critical exactly below 0.9 |
| ProjectDashboard.IndexIsFavourable | src/pages/dashboard/ProjectDashboard.tsx:140-147 | "Ahead of schedule" / "Under budget" exactly when the card is good |
| ProjectDashboard.DaysStatus | src/pages/dashboard/ProjectDashboard.tsx:156 | good exactly beyond 60 days, a warning exactly from 31 to 60, critical exactly at 30 or fewer |
| ProjectDashboard.StatusesMonotone | src/pages/dashboard/ProjectDashboard.tsx:142-156 | a better index or more days left never gives a worse card |
| ProjectDashboard.BudgetUsedPercent | src/pages/dashboard/ProjectDashboard.tsx:95 | no figure exactly for a zero budget (division by zero); for a positive budget, `actualCost / budget * 100` rounded half up |
| ProjectDashboard.BudgetUsedPercentAtFullSpend | src/pages/dashboard/ProjectDashboard.tsx:95 | spending all of a positive budget or more reads at least 100% |
| ProjectDashboard.SpendingNoteFor | src/pages/dashboard/ProjectDashboard.tsx:236-238 | "Spending is n% ahead" exactly when spending exceeds progress, with n the positive difference; otherwise "on track" |
| ProjectDashboard.ForecastIsRed | src/pages/dashboard/ProjectDashboard.tsx:225 | the forecast is red exactly when it exceeds the budget |
| ProjectDashboard.RagBadge | src/pages/dashboard/ProjectDashboard.tsx:120 | red, amber and green map one to one onto danger, warning and success |
| RolesPage.RoleHasPermission | src/pages/users/RolesPage.tsx:125-128 | true exactly when the first entry for the module, if any, lists the action; a module without an entry grants nothing |
| RolesPage.AdministratorHoldsEverything | src/pages/users/RolesPage.tsx:22-31 | the demonstration Administrator role holds all 25 module and action pairs |
| RolesPage.CustomerViewsOnly | src/pages/users/RolesPage.tsx:107-117 | the Customer role may view projects and reports and nothing else |
| RolesPage.RolePageAdministratorExceedsSessionAdministrator | src/pages/users/RolesPage.tsx:22-31 | this page's Administrator may approve reports, while the signed-in demonstration administrator may not |
| RolesPage.MatrixRow | src/pages/users/RolesPage.tsx:228-241 | 25 cells, module by module and action by action within each; cell 5i+j is a tick iff the role holds action j on module i (also lines 6-20) |
| RolesPage.EmptyRoleRowIsAllCrosses | src/pages/users/RolesPage.tsx:125-128 | a role without permissions shows only crosses (also lines 228-241) |
| RolesPage.Matrix | src/pages/users/RolesPage.tsx:223-243 | one row per role, in list order |
| UsersPage.FilteredUsers | src/pages/users/UsersPage.tsx:136-144 | an order-preserving sublist whose first name, last name or email contains the query in any letter case, of the chosen role and status |
| UsersPage.NoFilterKeepsAll | src/pages/users/UsersPage.tsx:136-144 | an empty search with no filters lists every user |
| UsersPage.FilteredKeepsMatches | src/pages/users/UsersPage.tsx:136-144 | every matching user is listed |
| UsersPage.SearchByEmailFindsUser | src/pages/users/UsersPage.tsx:140 | searching for a user's own email finds them |
| UsersPage.LastLoginCellOf | src/pages/users/UsersPage.tsx:205-208 | "Never" exactly for a user who has not logged in; otherwise the date of the last login |
| UsersPage.MenuEntries | src/pages/users/UsersPage.tsx:226-250 | three entries, Edit first and Delete last; Unlock exactly for a locked account, Lock exactly for any other |
| UsersPage.UsersPageState.constructor | src/pages/users/UsersPage.tsx:133-134 | no menu open and no user selected |
| UsersPage.UsersPageState.ToggleActions | src/pages/users/UsersPage.tsx:218 | the row's menu becomes open iff it was not open before |
| UsersPage.UsersPageState.EditUserEntry | src/pages/users/UsersPage.tsx:227-230 | "Edit User" selects the row's user and closes the menu |
| AuditLogPage.FilteredLogs | src/pages/users/AuditLogPage.tsx:140-147 | an order-preserving sublist whose user or entity name contains the query in any letter case, of the chosen module and action (empty means any) |
| AuditLogPage.NoFilterKeepsAll | src/pages/users/AuditLogPage.tsx:140-147 | an empty search with no filters lists every entry |
| AuditLogPage.FilteredKeepsMatches | src/pages/users/AuditLogPage.tsx:140-147 | every matching entry is listed |
| AuditLogPage.ChangesTable | src/pages/users/AuditLogPage.tsx:377-406 | the "Changes Made" section appears exactly when the entry records changes, with one row per changed field holding its name, old value and new value, in the entry's order |

## Left out

- Rendering: JSX, CSS classes and icons are not modelled. Each page's logic is modelled as the values it would display: labels, counts, colours as small enumerations, and visible rows.
- src/components/ui/StatusBadge.tsx and src/components/ui/KPICard.tsx are not part of this model; they are style lookups with no logic.
- src/pages/settings/SettingsPage.tsx is not part of this model; it is a static form.
- Routing is not modelled. src/App.tsx and src/layouts/AuthLayout.tsx are thin react-router redirects. `navigate(url)` becomes an out-parameter naming the link to follow.
- src/pages/auth/LoginPage.tsx is not part of this model; its form validation lives in zod and react-hook-form, which are not visible.
- Login: the `setTimeout` delay and zustand `persist` are left out because they are asynchronous and browser storage.
- Login token: `Date.now()` in the demonstration token is a string parameter.
- `new Date()`: wherever the source stamps a timestamp (`readAt`), it is a `now` parameter.
- date-fns is not modelled: no time zones, daylight saving time, `format` or month navigation. Dates are integer day numbers or timestamps; `differenceInDays`/`differenceInHours` results and the current date are inputs.
- Number display: `toFixed`, `toLocaleString` and the `/ 1000` and `/ 1000000` display scalings. These change only how a number is printed.
- Floating point: amounts and percentages are unbounded integers, and SPI and CPI are exact reals. Rounding artefacts of binary floating point are not modelled. Where the source can divide by zero, the outcome is modelled explicitly: the progress bar's `NaN`, minus infinity and capped plus infinity, and elsewhere the guarded cases.
- DataTable.TotalPages: a page size of 0 is excluded, because no table in the source passes a page size, so each uses the default 10, and a page size of 0 would divide by zero.
- Letter case: the search lower-cases ASCII letters only; Unicode case mapping is not modelled.
- Partial updates: `Partial<T>` updates made by spreading (`{ ...p, ...updates }`) are a function parameter `patch: T -> T` applied to the matching entity. The project filters patch is modelled field by field.
- `null` and `undefined` are not told apart; both are `None`.
- Buttons without handlers are not modelled: Lock, Unlock, Delete, Approve, Reject, Submit, Add and Save do nothing in the source. Only which buttons are offered is modelled.
- Modal forms are modelled as their initial field values only; typing into them is not.
- Reminder evaluation, escalation and delivery: the source only stores, displays and toggles reminder rules, so no evaluation semantics are invented.
- Demonstration data: the arrays are left out, except where a stated property quotes them. Those are the roles, the risk register, the reminder rules, the work-breakdown tree and the signed-in administrator.
- IssuesPage.ShowsEscalationArrow: it has no contract of its own, because it is the one comparison `currentEscalationLevel > 0`, and it is used only for an icon.
- Sorting is modelled as an insertion sort. Its comparator is proved a total preorder, and its result is proved sorted, a permutation of the input and stable, as `Array.prototype.sort` is. The in-place mutation of the copied array is not modelled, because the source sorts a fresh copy.
- DataTable.Cell: cells are compared by value. A column of objects, such as the audit log's `Date` timestamps, is compared in the source with `===`, which compares references, so two equal instants there are not equal and the comparator is not antisymmetric. The model gives each cell its rank and treats equal instants as equal.
- AuditLogPage.ChangesTable: the `changes` record is a list of field changes in insertion order. That is `Object.entries` order except for integer-like field names, which JavaScript lists first in ascending order; those are not modelled. Old and new values are held as the text `String(value)` gives them, so the conversion itself is not modelled.
- MainLayout's `handleLogout` is `AuthStore.AuthState.Logout` followed by navigation to the login page; the navigation is routing, which is not modelled.

## Findings

| source | as written | input that shows it | evidently intended | confidence | as-written member | corrected member |
|---|---|---|---|---|---|---|
| src/components/ui/DataTable.tsx:65-68 | `currentPage` (line 39) is kept when `data` changes and the slice uses it unchecked; the pager (line 138) is hidden with one page | on page 3 of 25 rows, a filter narrows the data to 5 rows: the slice from 20 is empty, and with one page the pager that could go back is hidden | show the last existing page, so non-empty data never shows an empty table | medium, not executed | DataTable.ShrunkDataShowsNothing | DataTable.ShownRows |
| src/pages/notifications/ReminderRulesPage.tsx:363 | the escalation delay falls back to 7 through a logical or, which also replaces 0 | the demonstration rule "Invoice Due Reminder" escalates after 0 days; editing it pre-fills 7 | a nullish fallback (`?? 7`), so that only a missing value becomes 7 | high, not executed | ReminderRulesPage.EditingImmediateEscalationShowsSeven | ReminderRulesPage.FormAfterDays |
| src/pages/notifications/ReminderRulesPage.tsx:298 | the trigger offset falls back to 7 through a logical or, which also replaces 0 | a rule triggering on the day itself (`triggerDays` 0) is edited as 7 days | a nullish fallback (`?? 7`) | high, not executed | ReminderRulesPage.EditingZeroOffsetShowsSeven | ReminderRulesPage.FormTriggerDays |
| src/pages/risks/RisksPage.tsx:227 | a matrix cell counts the risks whose `riskScore` equals the cell's product | a register with only "Scope creep" (Medium, Major, 12) shows 1 in its own cell and 1 in High/Moderate, which is also 12 | count the risks of that probability and impact, so each risk is in exactly one cell | medium, not executed | RisksPage.ScoreOnlyCountsSharedProducts | RisksPage.RiskInExactlyOneCell |
