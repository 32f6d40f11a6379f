/**
 * The user list (src/pages/users/UsersPage.tsx): the search over names and
 * e-mail with role and status filters, the "Last Login" cell, and the row
 * actions menu with its lock or unlock entry.
 */
module UsersPage {
  import opened Common
  import opened Types

  /** The query is a case-insensitive substring of the first name, last name or e-mail. */
  function MatchesSearch(u: User, query: string): bool
  {
    SearchMatches(u.firstName, query) || SearchMatches(u.lastName, query) || SearchMatches(u.email, query)
  }

  function MatchesUser(u: User, query: string, role: Option<UserRole>, status: Option<UserStatus>): bool
  {
    MatchesSearch(u, query) && (role.None? || u.role == role.value) && (status.None? || u.status == status.value)
  }

  /** `filteredUsers`; `None` is the empty select. */
  function FilteredUsers(us: seq<User>, query: string, role: Option<UserRole>, status: Option<UserStatus>): (r: seq<User>)
    ensures Subsequence(r, us)
    ensures forall i | 0 <= i < |r| :: MatchesSearch(r[i], query)
    ensures role.Some? ==> forall i | 0 <= i < |r| :: r[i].role == role.value
    ensures status.Some? ==> forall i | 0 <= i < |r| :: r[i].status == status.value
  {
    KeepIfSatisfies(us, (u: User) => MatchesUser(u, query, role, status));
    KeepIf(us, (u: User) => MatchesUser(u, query, role, status))
  }

  lemma NoFilterKeepsAll(us: seq<User>)
    ensures FilteredUsers(us, "", None, None) == us
  {
    forall i | 0 <= i < |us| ensures MatchesUser(us[i], "", None, None) {
      EmptyQueryMatches(us[i].firstName);
    }
  }

  lemma FilteredKeepsMatches(us: seq<User>, query: string, role: Option<UserRole>, status: Option<UserStatus>)
    ensures forall u | u in us && MatchesUser(u, query, role, status) :: u in FilteredUsers(us, query, role, status)
  {
    KeepIfMembers(us, (u: User) => MatchesUser(u, query, role, status));
  }

  /** Typing a user's e-mail address, in any letter case, finds the user. */
  lemma SearchByEmailFindsUser(us: seq<User>, k: nat)
    requires k < |us|
    ensures us[k] in FilteredUsers(us, us[k].email, None, None)
  {
    FieldMatchesItself(us[k].email, us[k].email);
    FilteredKeepsMatches(us, us[k].email, None, None);
  }

  /** "Last Login": the date, or "Never" when the user has not signed in. */
  datatype LastLoginCell = Never | LoggedInOn(timestamp: int)

  function LastLoginCellOf(u: User): (r: LastLoginCell)
    ensures r == Never <==> u.lastLogin.None?
    ensures r.LoggedInOn? ==> r.timestamp == u.lastLogin.value
  {
    match u.lastLogin
    case None => Never
    case Some(t) => LoggedInOn(t)
  }

  datatype MenuEntry = EditUser | UnlockAccount | LockAccount | DeleteUser

  /** The open menu: edit, then unlock for a locked account or lock for any other,
      then delete. */
  function MenuEntries(u: User): (r: seq<MenuEntry>)
    ensures |r| == 3 && r[0] == EditUser && r[2] == DeleteUser
    ensures UnlockAccount in r <==> u.status == Locked
    ensures LockAccount in r <==> u.status != Locked
  {
    [EditUser, if u.status == Locked then UnlockAccount else LockAccount, DeleteUser]
  }

  class UsersPageState {
    var showActionsMenu: Option<string>
    var selectedUser: Option<User>

    constructor ()
      ensures showActionsMenu == None && selectedUser == None
    {
      showActionsMenu := None;
      selectedUser := None;
    }

    /** The "more" button of a row: open its menu, or close it when already open. */
    method ToggleActions(id: string)
      modifies this`showActionsMenu
      ensures showActionsMenu == ToggleMenu(old(showActionsMenu), id)
      ensures showActionsMenu == Some(id) <==> old(showActionsMenu) != Some(id)
    {
      showActionsMenu := ToggleMenu(showActionsMenu, id);
    }

    /** "Edit User" selects the row's user and closes the menu. */
    method EditUserEntry(u: User)
      modifies this
      ensures selectedUser == Some(u) && showActionsMenu == None
    {
      selectedUser := Some(u);
      showActionsMenu := None;
    }
  }
}
