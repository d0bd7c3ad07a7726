/**
 * The user list page (app/settings/users/page.tsx): a search, a status and
 * a role select whose "all" option imposes nothing, selection and statistics.
 */
module UserList {

  import Text
  import Lists

  datatype User = User(
    id: string,
    name: string,
    email: string,
    role: string,
    plan: string,
    status: string,
    permissions: seq<string>,
    department: string)

  /** The page's five users. */
  const SampleUsers: seq<User> := [
    User("1", "John Admin Pro", "admin.pro@example.com", "ADMIN", "PRO", "Active", ["all"], "IT"),
    User("2", "Jane Basic Pro", "basic.pro@example.com", "MANAGER", "PRO", "Active",
         ["sales", "inventory", "reports"], "Sales"),
    User("3", "Bob Admin Free", "admin.free@example.com", "USER", "FREE", "Inactive", ["products", "orders"], "Operations"),
    User("4", "Alice Basic Free", "basic.free@example.com", "USER", "FREE", "Pending", ["products"], "Support"),
    User("5", "Carlos Silva", "carlos.silva@example.com", "MANAGER", "PRO", "Active",
         ["inventory", "reports", "devices"], "Warehouse")
  ]

  /** The value of both selects that imposes no constraint. */
  const All: string := "all"

  predicate SearchMatches(u: User, term: string)
  {
    Text.ContainsIgnoringCase(u.name, term)
    || Text.ContainsIgnoringCase(u.email, term)
    || Text.ContainsIgnoringCase(u.department, term)
  }

  /** A select's value: "all", or the lower-cased field must equal it. */
  predicate SelectAllows(selected: string, field: string)
  {
    selected == All || Text.Lower(field) == selected
  }

  predicate Passes(u: User, term: string, status: string, role: string)
  {
    SearchMatches(u, term) && SelectAllows(status, u.status) && SelectAllows(role, u.role)
  }

  function PassesFilters(term: string, status: string, role: string): User -> bool
  {
    u => Passes(u, term, status, role)
  }

  /** `filteredUsers`: the matching users in their order. */
  function FilteredUsers(all: seq<User>, term: string, status: string, role: string): (r: seq<User>)
    ensures forall u :: u in r <==> u in all && Passes(u, term, status, role)
    ensures forall u :: multiset(r)[u] == if Passes(u, term, status, role) then multiset(all)[u] else 0
    ensures Lists.IsSubsequence(r, all)
  {
    Lists.FilterIsSubsequence(all, PassesFilters(term, status, role));
    forall u ensures multiset(Lists.Filter(all, PassesFilters(term, status, role)))[u] == if Passes(u, term, status, role) then multiset(all)[u] else 0 {
      Lists.FilterCount(all, PassesFilters(term, status, role), u);
    }
    Lists.Filter(all, PassesFilters(term, status, role))
  }

  /** With no search and both selects on "all", every user is listed in order. */
  lemma DefaultFiltersShowAll(all: seq<User>)
    ensures FilteredUsers(all, "", All, All) == all
  {
    forall u | u in all ensures Passes(u, "", All, All) {
      Text.ContainsIgnoringCaseEmpty(u.name);
    }
    Lists.FilterAll(all, PassesFilters("", All, All));
  }

  /** A select value with an upper-case letter never matches, since fields are lower-cased first. */
  lemma UpperCaseSelectMatchesNothing(u: User, selected: string, i: int)
    requires 0 <= i < |selected| && Text.IsUpperAscii(selected[i])
    ensures !SelectAllows(selected, u.status) && !SelectAllows(selected, u.role)
  {
  }

  predicate IsActive(u: User) { u.status == "Active" }

  predicate IsPending(u: User) { u.status == "Pending" }

  function PermissionCount(u: User): real { |u.permissions| as real }

  /** The statistics cards, over every user. */
  datatype Stats = Stats(activeUsers: nat, pendingUsers: nat, totalPermissions: real)

  function UserStats(all: seq<User>): (r: Stats)
    ensures r.activeUsers + r.pendingUsers <= |all|
    ensures r.totalPermissions >= 0.0
  {
    Lists.CountDisjoint(all, IsActive, IsPending);
    Lists.SumNonNegative(all, PermissionCount);
    Stats(Lists.Count(all, IsActive), Lists.Count(all, IsPending), Lists.Sum(all, PermissionCount))
  }

  lemma SampleActive()
    ensures Lists.Filter(SampleUsers, IsActive) == [SampleUsers[0], SampleUsers[1], SampleUsers[4]]
  {
    var s := SampleUsers;
    assert Lists.Filter(s[4..], IsActive) == [s[4]];
    assert Lists.Filter(s[3..], IsActive) == [s[4]];
    assert Lists.Filter(s[2..], IsActive) == [s[4]];
    assert Lists.Filter(s[1..], IsActive) == [s[1], s[4]];
  }

  lemma SamplePending()
    ensures Lists.Filter(SampleUsers, IsPending) == [SampleUsers[3]]
  {
    var s := SampleUsers;
    assert Lists.Filter(s[4..], IsPending) == [];
    assert Lists.Filter(s[3..], IsPending) == [s[3]];
    assert Lists.Filter(s[2..], IsPending) == [s[3]];
    assert Lists.Filter(s[1..], IsPending) == [s[3]];
  }

  lemma SamplePermissions()
    ensures Lists.Sum(SampleUsers, PermissionCount) == 10.0
  {
    var s := SampleUsers;
    assert Lists.Sum(s[4..], PermissionCount) == 3.0;
    assert Lists.Sum(s[3..], PermissionCount) == 4.0;
    assert Lists.Sum(s[2..], PermissionCount) == 6.0;
    assert Lists.Sum(s[1..], PermissionCount) == 9.0;
  }

  lemma SampleStatistics()
    ensures UserStats(SampleUsers) == Stats(3, 1, 10.0)
  {
    SampleActive();
    SamplePending();
    SamplePermissions();
  }

  function IdOf(u: User): string { u.id }

  /** The page's state. */
  class UserListView {
    const users: seq<User>
    var searchTerm: string
    var selectedUsers: seq<string>
    var statusFilter: string
    var roleFilter: string

    constructor(users: seq<User>)
      ensures this.users == users
      ensures searchTerm == "" && selectedUsers == [] && statusFilter == All && roleFilter == All
    {
      this.users := users;
      searchTerm := "";
      selectedUsers := [];
      statusFilter := All;
      roleFilter := All;
    }

    function Filtered(): seq<User>
      reads this
    {
      FilteredUsers(users, searchTerm, statusFilter, roleFilter)
    }

    predicate HeaderChecked()
      reads this
    {
      Lists.HeaderState(|selectedUsers|, |Filtered()|) == Lists.Checked
    }

    method SetFilters(term: string, status: string, role: string)
      modifies this
      ensures searchTerm == term && statusFilter == status && roleFilter == role
      ensures selectedUsers == old(selectedUsers)
    {
      searchTerm := term;
      statusFilter := status;
      roleFilter := role;
    }

    method HandleSelectAll(checked: bool)
      modifies this
      ensures checked ==> selectedUsers == Lists.Map(Filtered(), IdOf)
      ensures !checked ==> selectedUsers == []
      ensures HeaderChecked() <==> checked && |Filtered()| > 0
      ensures searchTerm == old(searchTerm) && statusFilter == old(statusFilter) && roleFilter == old(roleFilter)
    {
      if checked {
        selectedUsers := Lists.Map(Filtered(), IdOf);
      } else {
        selectedUsers := [];
      }
    }

    method HandleSelectUser(id: string, checked: bool)
      modifies this
      ensures selectedUsers == Lists.Toggle(old(selectedUsers), id, checked)
      ensures searchTerm == old(searchTerm) && statusFilter == old(statusFilter) && roleFilter == old(roleFilter)
    {
      selectedUsers := Lists.Toggle(selectedUsers, id, checked);
    }
  }
}
