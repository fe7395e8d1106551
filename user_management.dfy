/**
 * User and role administration: the filtered user list, saving a user from the form (edit by id
 * or create with the next numeric id and status "pending"), deletion, bulk activate, deactivate
 * and delete over the selection, and saving roles whose new id is derived from the name.
 */
module UserManagement {
  import opened Wrappers
  import opened Strings
  import opened Seqs
  import opened Types

  datatype UserStatus = Active | Inactive | Pending

  function StatusName(s: UserStatus): string {
    match s
    case Active => "active"
    case Inactive => "inactive"
    case Pending => "pending"
  }

  /**
   * A user record. `password` is not declared on the record, but saving spreads the whole form
   * (password included) into it.
   */
  datatype User = User(
    id: string,
    name: string,
    email: string,
    role: string,
    status: UserStatus,
    department: string,
    phone: Option<string>,
    lastLogin: Option<string>,
    createdAt: string,
    permissions: seq<string>,
    avatar: Option<string>,
    password: Option<string>
  )

  datatype Role = Role(id: string, name: string, description: string, permissions: seq<string>, userCount: int)

  /** The user dialog's fields. */
  datatype UserForm = UserForm(name: string, email: string, role: string, department: string, phone: string, password: string)

  /** The role dialog's fields. */
  datatype RoleForm = RoleForm(name: string, description: string, permissions: seq<string>)

  const EmptyUserForm := UserForm("", "", "user", "", "", "")
  const EmptyRoleForm := RoleForm("", "", [])

  function UserKey(u: User): string { u.id }
  function UserIds(users: seq<User>): seq<string> { Map(users, UserKey) }

  // ---------------------------------------------------------------- the filtered list

  /** The search, role and status criteria, all of which must hold; "all" lifts a criterion. */
  predicate MatchesUser(u: User, q: string, role: string, status: string) {
    (ContainsIgnoringCase(u.name, q) || ContainsIgnoringCase(u.email, q) || ContainsIgnoringCase(u.department, q))
    && (role == "all" || u.role == role)
    && (status == "all" || StatusName(u.status) == status)
  }

  function ByUserCriteria(q: string, role: string, status: string): User -> bool {
    (u: User) => MatchesUser(u, q, role, status)
  }

  /** `filteredUsers`. */
  function FilteredUsers(users: seq<User>, q: string, role: string, status: string): (r: seq<User>)
    ensures forall u :: u in r <==> u in users && MatchesUser(u, q, role, status)
    ensures |r| <= |users|
  {
    Filter(users, ByUserCriteria(q, role, status))
  }

  /** With an empty search and both selectors on "all" every user is listed, in order. */
  lemma UnfilteredUsers(users: seq<User>)
    ensures FilteredUsers(users, "", "all", "all") == users
  {
    forall i | 0 <= i < |users| ensures MatchesUser(users[i], "", "all", "all") {
      ContainsEmpty(Lower(users[i].name));
    }
    FilterAll(users, ByUserCriteria("", "all", "all"));
  }

  // ---------------------------------------------------------------- saving users

  /** `roles.find(r => r.id === id)?.permissions || []`. */
  function RolePermissions(roles: seq<Role>, id: string): (r: seq<string>)
    ensures (forall i :: 0 <= i < |roles| ==> roles[i].id != id) ==> r == []
    ensures forall i :: 0 <= i < |roles| && roles[i].id == id && (forall j :: 0 <= j < i ==> roles[j].id != id) ==>
      r == roles[i].permissions
  {
    var found := Find(roles, (x: Role) => x.id == id);
    if found.Some? then found.value.permissions else []
  }

  /** `{ ...user, ...newUser, permissions }`: the form's fields over the user, permissions from the role. */
  function EditedUser(u: User, f: UserForm, roles: seq<Role>): (r: User)
    ensures r.id == u.id && r.status == u.status && r.createdAt == u.createdAt
    ensures r.name == f.name && r.email == f.email && r.role == f.role && r.department == f.department
    ensures r.permissions == RolePermissions(roles, f.role)
  {
    u.(name := f.name, email := f.email, role := f.role, department := f.department, phone := Some(f.phone),
       password := Some(f.password), permissions := RolePermissions(roles, f.role))
  }

  /** The created user: the next id, the form's fields, status "pending" and the role's permissions. */
  function CreatedUser(users: seq<User>, f: UserForm, roles: seq<Role>, createdAt: string): (r: User)
    ensures r.id == NextId(NumberOf, UserIds(users)) && r.status == Pending && r.createdAt == createdAt
    ensures r.name == f.name && r.email == f.email && r.role == f.role && r.department == f.department
    ensures r.permissions == RolePermissions(roles, f.role)
  {
    User(NextId(NumberOf, UserIds(users)), f.name, f.email, f.role, Pending, f.department, Some(f.phone), None,
         createdAt, RolePermissions(roles, f.role), None, Some(f.password))
  }

  /** The list after editing `id`: the entries with that id are edited, the others untouched. */
  function UsersAfterEdit(users: seq<User>, id: string, f: UserForm, roles: seq<Role>): (r: seq<User>)
    ensures |r| == |users|
    ensures forall i :: 0 <= i < |users| ==> r[i] == if users[i].id == id then EditedUser(users[i], f, roles) else users[i]
  {
    Map(users, (u: User) => if u.id == id then EditedUser(u, f, roles) else u)
  }

  /** With numeric ids a created user gets an id no existing user has. */
  lemma CreatedUserFresh(users: seq<User>, f: UserForm, roles: seq<Role>, createdAt: string)
    requires AllNumeric(NumberOf, UserIds(users))
    ensures forall i :: 0 <= i < |users| ==> users[i].id != CreatedUser(users, f, roles, createdAt).id
  {
    NumberOfReadsBack();
    IdAfterFresh(NumberOf, UserIds(users), 0);
    forall i | 0 <= i < |users| ensures users[i].id != NextId(NumberOf, UserIds(users)) {
      assert UserIds(users)[i] == users[i].id;
    }
  }

  // ---------------------------------------------------------------- bulk actions

  datatype BulkAction = Activate | Deactivate | DeleteSelected | OtherAction(name: string)

  function WithUserStatus(users: seq<User>, selected: seq<string>, s: UserStatus): (r: seq<User>)
    ensures |r| == |users|
    ensures forall i :: 0 <= i < |users| ==> r[i] == if users[i].id in selected then users[i].(status := s) else users[i]
  {
    Map(users, (u: User) => if u.id in selected then u.(status := s) else u)
  }

  /** The test `user => user.id !== id` of `handleDeleteUser`. */
  function OtherUser(id: string): User -> bool {
    (u: User) => u.id != id
  }

  function Unselected(selected: seq<string>): User -> bool {
    (u: User) => u.id !in selected
  }

  /** The users after a bulk action on a selection. */
  function AfterBulk(users: seq<User>, selected: seq<string>, action: BulkAction): (r: seq<User>)
    ensures action.Activate? ==> r == WithUserStatus(users, selected, Active)
    ensures action.Deactivate? ==> r == WithUserStatus(users, selected, Inactive)
    ensures action.DeleteSelected? ==> forall u :: u in r <==> u in users && u.id !in selected
    ensures action.OtherAction? ==> r == users
  {
    match action
    case Activate => WithUserStatus(users, selected, Active)
    case Deactivate => WithUserStatus(users, selected, Inactive)
    case DeleteSelected => Filter(users, Unselected(selected))
    case OtherAction(_) => users
  }

  /** Activating or deactivating changes only the status of selected users, and nobody else. */
  lemma BulkStatusOnlySelected(users: seq<User>, selected: seq<string>, action: BulkAction)
    requires action.Activate? || action.Deactivate?
    ensures var r := AfterBulk(users, selected, action);
      |r| == |users| &&
      forall i :: 0 <= i < |users| ==> r[i].(status := users[i].status) == users[i] && (users[i].id !in selected ==> r[i] == users[i])
  {
  }

  // ---------------------------------------------------------------- role ids

  /** `s.replace(/\s+/g, "_")`: every run of white space becomes one underscore. */
  function UnderscoreSpaces(s: string): (r: string)
    ensures |r| <= |s|
    ensures forall i :: 0 <= i < |r| ==> !IsSpace(r[i])
    ensures (forall i :: 0 <= i < |s| ==> !IsSpace(s[i])) ==> r == s
    decreases |s|
  {
    if |s| == 0 then ""
    else if IsSpace(s[0]) then "_" + UnderscoreSpaces(TrimStart(s[1..]))
    else [s[0]] + UnderscoreSpaces(s[1..])
  }

  /** A new role's id: its name lowercased, white-space runs replaced by "_". */
  function RoleId(name: string): (r: string)
    ensures |r| <= |name|
    ensures forall i :: 0 <= i < |r| ==> !IsSpace(r[i]) && !('A' <= r[i] <= 'Z')
  {
    UnderscoreSpacesKeepsCase(Lower(name));
    UnderscoreSpaces(Lower(name))
  }

  /** Replacing white space adds no upper-case letter. */
  lemma {:induction false} UnderscoreSpacesKeepsCase(s: string)
    requires forall i :: 0 <= i < |s| ==> !('A' <= s[i] <= 'Z')
    ensures forall i :: 0 <= i < |UnderscoreSpaces(s)| ==> !('A' <= UnderscoreSpaces(s)[i] <= 'Z')
    decreases |s|
  {
    if |s| > 0 {
      if IsSpace(s[0]) {
        var t := TrimStart(s[1..]);
        assert forall i :: 0 <= i < |t| ==> t[i] == s[1..][|s[1..]| - |t| + i];
        UnderscoreSpacesKeepsCase(t);
      } else {
        UnderscoreSpacesKeepsCase(s[1..]);
      }
    }
  }

  predicate Blank(w: string) {
    forall i :: 0 <= i < |w| ==> IsSpace(w[i])
  }

  predicate NoSpace(w: string) {
    forall i :: 0 <= i < |w| ==> !IsSpace(w[i])
  }

  /** Trimming the start drops a blank prefix and stops at the first other character. */
  lemma {:induction false} TrimStartBlankPrefix(w: string, b: string)
    requires Blank(w) && (|b| == 0 || !IsSpace(b[0]))
    ensures TrimStart(w + b) == b
    decreases |w|
  {
    if |w| == 0 {
      assert w + b == b;
    } else {
      assert (w + b)[1..] == w[1..] + b;
      TrimStartBlankPrefix(w[1..], b);
    }
  }

  lemma UnderscoreSpacesCons(c: char, t: string)
    requires !IsSpace(c)
    ensures UnderscoreSpaces([c] + t) == [c] + UnderscoreSpaces(t)
  {
    assert ([c] + t)[1..] == t;
  }

  lemma UnderscoreSpacesRunStart(w: string, b: string)
    requires |w| > 0 && Blank(w) && (|b| == 0 || !IsSpace(b[0]))
    ensures UnderscoreSpaces(w + b) == "_" + UnderscoreSpaces(b)
  {
    assert (w + b)[1..] == w[1..] + b;
    TrimStartBlankPrefix(w[1..], b);
  }

  /**
   * A word, a run of white space and the rest: the word is kept, the whole run becomes one "_",
   * and the rest is treated the same way.
   */
  lemma {:induction false} UnderscoreSpacesRun(a: string, w: string, b: string)
    requires NoSpace(a) && |w| > 0 && Blank(w) && (|b| == 0 || !IsSpace(b[0]))
    ensures UnderscoreSpaces(a + w + b) == a + "_" + UnderscoreSpaces(b)
    decreases |a|, 1
  {
    if |a| == 0 {
      assert a + w + b == w + b && a + "_" + UnderscoreSpaces(b) == "_" + UnderscoreSpaces(b);
      UnderscoreSpacesRunStart(w, b);
    } else {
      UnderscoreSpacesRunStep(a, w, b);
    }
  }

  lemma {:induction false} UnderscoreSpacesRunStep(a: string, w: string, b: string)
    requires |a| > 0 && NoSpace(a) && |w| > 0 && Blank(w) && (|b| == 0 || !IsSpace(b[0]))
    ensures UnderscoreSpaces(a + w + b) == a + "_" + UnderscoreSpaces(b)
    decreases |a|, 0
  {
    var c, a' := a[0], a[1..];
    var t := a' + w + b;
    assert a == [c] + a';
    assert a + w + b == [c] + t;
    assert NoSpace(a') by {
      forall i | 0 <= i < |a'| ensures !IsSpace(a'[i]) {
        assert a'[i] == a[i + 1];
      }
    }
    UnderscoreSpacesCons(c, t);
    UnderscoreSpacesRun(a', w, b);
    ConsRegroup(c, a', "_", UnderscoreSpaces(b));
  }

  lemma ConsRegroup(c: char, x: string, y: string, z: string)
    ensures [c] + x + y + z == [c] + (x + y + z)
  {
  }

  /** `{ ...role, ...newRole }` on the roles with the id: name, description and permissions from the form. */
  function RolesAfterEdit(roles: seq<Role>, id: string, f: RoleForm): (r: seq<Role>)
    ensures |r| == |roles|
    ensures forall i :: 0 <= i < |roles| && roles[i].id != id ==> r[i] == roles[i]
    ensures forall i :: 0 <= i < |roles| && roles[i].id == id ==>
      r[i] == Role(id, f.name, f.description, f.permissions, roles[i].userCount)
  {
    Map(roles, (x: Role) => if x.id == id then x.(name := f.name, description := f.description, permissions := f.permissions) else x)
  }

  // ---------------------------------------------------------------- the component

  class UserManagementPage {
    var users: seq<User>
    var roles: seq<Role>
    var searchQuery: string
    var selectedRole: string
    var selectedStatus: string
    var selectedUsers: seq<string>
    var isUserModalOpen: bool
    var isRoleModalOpen: bool
    var currentUser: Option<User>
    var currentRole: Option<Role>
    var newUser: UserForm
    var newRole: RoleForm

    /** Both lists start empty, the selectors on "all". */
    constructor ()
      ensures users == [] && roles == [] && searchQuery == "" && selectedRole == "all" && selectedStatus == "all"
      ensures selectedUsers == [] && !isUserModalOpen && !isRoleModalOpen && currentUser == None && currentRole == None
      ensures newUser == EmptyUserForm && newRole == EmptyRoleForm
    {
      users := [];
      roles := [];
      searchQuery := "";
      selectedRole := "all";
      selectedStatus := "all";
      selectedUsers := [];
      isUserModalOpen := false;
      isRoleModalOpen := false;
      currentUser := None;
      currentRole := None;
      newUser := EmptyUserForm;
      newRole := EmptyRoleForm;
    }

    /** `handleAddUser`: an empty form for a new user. */
    method AddUser()
      modifies this`currentUser, this`newUser, this`isUserModalOpen
      ensures currentUser == None && newUser == EmptyUserForm && isUserModalOpen
    {
      currentUser := None;
      newUser := EmptyUserForm;
      isUserModalOpen := true;
    }

    /** `handleEditUser`: the form holds the user's fields, the phone or "", and no password. */
    method EditUser(u: User)
      modifies this`currentUser, this`newUser, this`isUserModalOpen
      ensures currentUser == Some(u) && isUserModalOpen
      ensures newUser == UserForm(u.name, u.email, u.role, u.department, OrEmpty(u.phone), "")
    {
      currentUser := Some(u);
      newUser := UserForm(u.name, u.email, u.role, u.department, OrEmpty(u.phone), "");
      isUserModalOpen := true;
    }

    /**
     * `handleSaveUser`: nothing at all without a name or an email; otherwise the user under edit is
     * updated, or a new user appended, and the dialog closes.
     */
    method SaveUser(createdAt: string)
      modifies this`users, this`isUserModalOpen
      ensures newUser.name == "" || newUser.email == "" ==>
        users == old(users) && isUserModalOpen == old(isUserModalOpen)
      ensures newUser.name != "" && newUser.email != "" && currentUser.Some? ==>
        users == UsersAfterEdit(old(users), currentUser.value.id, newUser, roles) && !isUserModalOpen
      ensures newUser.name != "" && newUser.email != "" && currentUser.None? ==>
        users == old(users) + [CreatedUser(old(users), newUser, roles, createdAt)] && !isUserModalOpen
    {
      if newUser.name == "" || newUser.email == "" {
        return;
      }
      if currentUser.Some? {
        users := UsersAfterEdit(users, currentUser.value.id, newUser, roles);
      } else {
        users := users + [CreatedUser(users, newUser, roles, createdAt)];
      }
      isUserModalOpen := false;
    }

    /** `handleDeleteUser`: every user with the id goes, the others stay in order. */
    method DeleteUser(id: string)
      modifies this`users
      ensures users == Filter(old(users), OtherUser(id))
      ensures forall u :: u in users <==> u in old(users) && u.id != id
    {
      users := Filter(users, OtherUser(id));
    }

    /** `handleBulkAction`: nothing without a selection; otherwise the action, then the selection clears. */
    method ApplyBulkAction(action: BulkAction)
      modifies this`users, this`selectedUsers
      ensures old(selectedUsers) == [] ==> users == old(users) && selectedUsers == []
      ensures old(selectedUsers) != [] ==> users == AfterBulk(old(users), old(selectedUsers), action) && selectedUsers == []
    {
      if |selectedUsers| == 0 {
        return;
      }
      users := AfterBulk(users, selectedUsers, action);
      selectedUsers := [];
    }

    /** `handleAddRole`. */
    method AddRole()
      modifies this`currentRole, this`newRole, this`isRoleModalOpen
      ensures currentRole == None && newRole == EmptyRoleForm && isRoleModalOpen
    {
      currentRole := None;
      newRole := EmptyRoleForm;
      isRoleModalOpen := true;
    }

    /** `handleEditRole`. */
    method EditRole(r: Role)
      modifies this`currentRole, this`newRole, this`isRoleModalOpen
      ensures currentRole == Some(r) && newRole == RoleForm(r.name, r.description, r.permissions) && isRoleModalOpen
    {
      currentRole := Some(r);
      newRole := RoleForm(r.name, r.description, r.permissions);
      isRoleModalOpen := true;
    }

    /**
     * `handleSaveRole`: nothing without a name or a description; editing overwrites the name,
     * description and permissions of the roles with the id; creating appends a role with the
     * derived id and no users.
     */
    method SaveRole()
      modifies this`roles, this`isRoleModalOpen
      ensures newRole.name == "" || newRole.description == "" ==> roles == old(roles) && isRoleModalOpen == old(isRoleModalOpen)
      ensures newRole.name != "" && newRole.description != "" && currentRole.Some? ==>
        roles == RolesAfterEdit(old(roles), currentRole.value.id, newRole) && !isRoleModalOpen
      ensures newRole.name != "" && newRole.description != "" && currentRole.None? ==>
        roles == old(roles) + [Role(RoleId(newRole.name), newRole.name, newRole.description, newRole.permissions, 0)] && !isRoleModalOpen
    {
      if newRole.name == "" || newRole.description == "" {
        return;
      }
      if currentRole.Some? {
        roles := RolesAfterEdit(roles, currentRole.value.id, newRole);
      } else {
        roles := roles + [Role(RoleId(newRole.name), newRole.name, newRole.description, newRole.permissions, 0)];
      }
      isRoleModalOpen := false;
    }

    /** `handleSelectAll`: the ids of the users on show, or nothing. */
    method SelectAll(checked: bool)
      modifies this`selectedUsers
      ensures checked ==> selectedUsers == UserIds(FilteredUsers(users, searchQuery, selectedRole, selectedStatus))
      ensures !checked ==> selectedUsers == []
    {
      if checked {
        selectedUsers := UserIds(FilteredUsers(users, searchQuery, selectedRole, selectedStatus));
      } else {
        selectedUsers := [];
      }
    }

    /** `handleSelectUser`: ticking appends the id; unticking removes every occurrence of it. */
    method SelectUser(id: string, checked: bool)
      modifies this`selectedUsers
      ensures checked ==> selectedUsers == old(selectedUsers) + [id]
      ensures !checked ==> selectedUsers == Filter(old(selectedUsers), Other(id))
      ensures !checked ==> forall x :: x in selectedUsers <==> x in old(selectedUsers) && x != id
    {
      if checked {
        selectedUsers := selectedUsers + [id];
      } else {
        selectedUsers := Filter(selectedUsers, Other(id));
      }
    }
  }
}
