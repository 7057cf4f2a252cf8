/**
 * The administrator's user table: accounts with a role, a status and a list
 * of permissions, added, edited and deleted in memory.
 */
module UserManagement {
  import opened Common
  import opened Records

  datatype User = User(id: int, name: string, email: string, role: string, status: string, permissions: seq<string>)

  /** The dialog's fields. */
  datatype UserForm = UserForm(name: string, email: string, role: string, permissions: seq<string>)

  function UserId(u: User): int
  {
    u.id
  }

  const BlankForm: UserForm := UserForm("", "", "", [])

  /** The roles the select offers and the permissions the checkboxes offer. */
  const Roles: seq<string> := ["Admin", "Teacher", "Student"]
  const Permissions: seq<string> := ["view", "edit", "delete", "manage_users", "manage_courses"]

  /** The three accounts the page starts with. */
  const InitialUsers: seq<User> := [
    User(1, "John Doe", "john@example.com", "Teacher", "Active", ["view", "edit"]),
    User(2, "Jane Smith", "jane@example.com", "Student", "Active", ["view"]),
    User(3, "Admin User", "admin@example.com", "Admin", "Active", ["view", "edit", "delete"])]

  /** The form the dialog opens with: the user's four fields, or all empty. */
  function FormFor(u: Option<User>): (f: UserForm)
    ensures u.None? ==> f.name == "" && f.email == "" && f.role == "" && f.permissions == []
    ensures u.Some? ==>
      f.name == u.value.name && f.email == u.value.email && f.role == u.value.role &&
      f.permissions == u.value.permissions
  {
    match u
    case None => BlankForm
    case Some(x) => UserForm(x.name, x.email, x.role, x.permissions)
  }

  /** `{...user, ...formData}`: the form's four fields win; id and status are the user's. */
  function Merge(u: User, f: UserForm): (r: User)
    ensures r.id == u.id && r.status == u.status
    ensures FormFor(Some(r)) == f
  {
    User(u.id, f.name, f.email, f.role, u.status, f.permissions)
  }

  /** A new active account with id `id` and the form's fields. */
  function NewUser(id: int, f: UserForm): (r: User)
    ensures r.id == id && r.status == "Active"
    ensures FormFor(Some(r)) == f
  {
    User(id, f.name, f.email, f.role, "Active", f.permissions)
  }

  /** The edit branch of `handleSubmit`: only the users with the id take the form's fields. */
  function UpdateUser(users: seq<User>, id: int, f: UserForm): (r: seq<User>)
    ensures |r| == |users|
    ensures forall i :: 0 <= i < |r| ==> r[i].id == users[i].id && r[i].status == users[i].status
    ensures forall i :: 0 <= i < |r| && users[i].id == id ==> FormFor(Some(r[i])) == f
    ensures forall i :: 0 <= i < |r| && users[i].id != id ==> r[i] == users[i]
  {
    UpdateWhere(users, UserId, id, u => Merge(u, f))
  }

  /** `handleDeleteUser`: the users with the id are removed, the rest kept in order. */
  function DeleteUser(users: seq<User>, id: int): (r: seq<User>)
    ensures |r| <= |users|
    ensures forall i :: 0 <= i < |r| ==> r[i] in users && r[i].id != id
    ensures forall i :: 0 <= i < |users| && users[i].id != id ==> users[i] in r
  {
    Without(users, UserId, id)
  }

  /**
   * The add branch of `handleSubmit` as written: one new active account at
   * the end, with the form's fields and the id one past the number of rows.
   */
  function AddUserAsWritten(users: seq<User>, f: UserForm): (r: seq<User>)
    ensures |r| == |users| + 1 && r[..|users|] == users
    ensures r[|users|].id == |users| + 1 && r[|users|].status == "Active"
    ensures FormFor(Some(r[|users|])) == f
  {
    assert (users + [NewUser(|users| + 1, f)])[..|users|] == users;
    users + [NewUser(|users| + 1, f)]
  }

  /**
   * Counting rows is safe while no id exceeds the number of rows, as holds
   * before anything is deleted: the new id is then unused.
   */
  lemma AddAsWrittenKeepsUniqueWhileIdsWithinCount(users: seq<User>, f: UserForm)
    requires UniqueIds(users, UserId)
    requires forall i :: 0 <= i < |users| ==> users[i].id <= |users|
    ensures UniqueIds(AddUserAsWritten(users, f), UserId)
  {
    var x := NewUser(|users| + 1, f);
    assert !HasId(users, UserId, UserId(x));
    AppendFreshKeepsUnique(users, UserId, x);
    assert AddUserAsWritten(users, f) == users + [x];
  }

  /**
   * Counting rows repeats an id once a row other than the last is gone:
   * deleting user 2 of the initial table and adding an account yields two
   * users with id 3.
   */
  lemma AddAfterDeleteDuplicatesId()
    ensures UniqueIds(InitialUsers, UserId)
    ensures !UniqueIds(AddUserAsWritten(DeleteUser(InitialUsers, 2), BlankForm), UserId)
  {
    var rest := DeleteUser(InitialUsers, 2);
    DeleteSecondDemoUser();
    var t := AddUserAsWritten(rest, BlankForm);
    assert t[..2] == rest;
    assert t[1] == rest[1];
    assert t[1].id == 3 && t[2].id == 3;
  }

  /** Deleting user 2 of the demo table leaves users 1 and 3. */
  lemma DeleteSecondDemoUser()
    ensures DeleteUser(InitialUsers, 2) == [InitialUsers[0], InitialUsers[2]]
  {
    var u := InitialUsers;
    assert u == [u[0]] + [u[1]] + [u[2]];
    WithoutAppend([u[0]] + [u[1]], [u[2]], UserId, 2);
    WithoutAppend([u[0]], [u[1]], UserId, 2);
  }

  /** The id a new account gets: one past the largest id, so never in use. */
  function NextUserId(users: seq<User>): (r: int)
    ensures r >= 1
    ensures forall i :: 0 <= i < |users| ==> users[i].id != r
  {
    FreshId(users, UserId)
  }

  /** The add branch with a fresh id: one new active account at the end. */
  function AddUser(users: seq<User>, f: UserForm): (r: seq<User>)
    ensures |r| == |users| + 1 && r[..|users|] == users
    ensures r[|users|].status == "Active" && FormFor(Some(r[|users|])) == f
    ensures forall i :: 0 <= i < |users| ==> users[i].id != r[|users|].id
  {
    assert (users + [NewUser(NextUserId(users), f)])[..|users|] == users;
    users + [NewUser(NextUserId(users), f)]
  }

  /** Adding, editing and deleting all keep the user ids unique. */
  lemma OperationsKeepIdsUnique(users: seq<User>, id: int, f: UserForm)
    requires UniqueIds(users, UserId)
    ensures UniqueIds(AddUser(users, f), UserId)
    ensures UniqueIds(UpdateUser(users, id, f), UserId)
    ensures UniqueIds(DeleteUser(users, id), UserId)
  {
    AppendFreshKeepsUnique(users, UserId, NewUser(NextUserId(users), f));
    UpdateKeepsUnique(users, UserId, id, u => Merge(u, f));
    WithoutKeepsUnique(users, UserId, id);
  }

  /** `permissions.filter(q => q !== p)`. */
  function RemoveAll(perms: seq<string>, p: string): (r: seq<string>)
    ensures p !in r
    ensures forall q :: q != p ==> (q in r <==> q in perms)
    ensures |r| <= |perms|
  {
    if perms == [] then []
    else if perms[0] == p then RemoveAll(perms[1..], p)
    else [perms[0]] + RemoveAll(perms[1..], p)
  }

  /** A list without `p` is left as it is by removing `p`. */
  lemma {:induction false} RemoveAbsent(perms: seq<string>, p: string)
    requires p !in perms
    ensures RemoveAll(perms, p) == perms
  {
    if perms != [] {
      assert p !in perms[1..];
      RemoveAbsent(perms[1..], p);
    }
  }

  /** Removing `p` from `a + b` removes it from each part, keeping their order. */
  lemma {:induction false} RemoveAllAppend(a: seq<string>, b: seq<string>, p: string)
    ensures RemoveAll(a + b, p) == RemoveAll(a, p) + RemoveAll(b, p)
  {
    if a == [] {
      assert a + b == b;
    } else {
      assert (a + b)[1..] == a[1..] + b;
      RemoveAllAppend(a[1..], b, p);
    }
  }

  /** A checkbox change: checking appends the permission, unchecking removes every copy. */
  function TogglePermission(perms: seq<string>, p: string, checked: bool): (r: seq<string>)
    ensures checked ==> r == perms + [p]
    ensures !checked ==> p !in r && forall q :: q != p ==> (q in r <==> q in perms)
    ensures (p in r) == checked
  {
    if checked then perms + [p] else RemoveAll(perms, p)
  }

  /** Checking and then unchecking a permission the user lacked restores the list. */
  lemma CheckThenUncheck(perms: seq<string>, p: string)
    requires p !in perms
    ensures TogglePermission(TogglePermission(perms, p, true), p, false) == perms
  {
    RemoveAllAppend(perms, [p], p);
    RemoveAbsent(perms, p);
    assert RemoveAll([p][1..], p) == [];
  }

  /** Whether the checkbox for `p` shows as checked. */
  predicate Checked(f: UserForm, p: string)
  {
    p in f.permissions
  }

  class UserManagementPage {
    var users: seq<User>
    var openDialog: bool
    var selectedUser: Option<User>
    var formData: UserForm

    /** User ids are unique. */
    ghost predicate Valid()
      reads this
    {
      UniqueIds(users, UserId)
    }

    constructor ()
      ensures Valid()
      ensures users == InitialUsers && !openDialog && selectedUser == None && formData == BlankForm
    {
      users := InitialUsers;
      openDialog := false;
      selectedUser := None;
      formData := BlankForm;
    }

    /** `handleOpenDialog`: edit the given account, or add a new one. */
    method OpenDialog(u: Option<User>)
      modifies this`selectedUser, this`formData, this`openDialog
      ensures selectedUser == u && formData == FormFor(u) && openDialog
    {
      selectedUser := u;
      formData := FormFor(u);
      openDialog := true;
    }

    /** `handleCloseDialog`: closing also forgets the account being edited. */
    method CloseDialog()
      modifies this`selectedUser, this`openDialog
      ensures selectedUser == None && !openDialog
    {
      openDialog := false;
      selectedUser := None;
    }

    /** The name and email fields and the role select. */
    method ChangeText(name: string, email: string, role: string)
      modifies this`formData
      ensures formData == old(formData).(name := name, email := email, role := role)
    {
      formData := formData.(name := name, email := email, role := role);
    }

    /** A permission checkbox: afterwards it shows `checked`, and the other fields are kept. */
    method ChangePermission(p: string, checked: bool)
      modifies this`formData
      ensures formData == old(formData).(permissions := TogglePermission(old(formData).permissions, p, checked))
      ensures Checked(formData, p) == checked
    {
      formData := formData.(permissions := TogglePermission(formData.permissions, p, checked));
    }

    /** `handleSubmit`: edit the selected account or add a new one, then close. */
    method Submit()
      requires Valid()
      modifies this
      ensures Valid()
      ensures users == (if old(selectedUser).Some? then UpdateUser(old(users), old(selectedUser).value.id, old(formData))
                        else AddUser(old(users), old(formData)))
      ensures selectedUser == None && !openDialog && formData == old(formData)
    {
      OperationsKeepIdsUnique(users, if selectedUser.Some? then selectedUser.value.id else 0, formData);
      if selectedUser.Some? {
        users := UpdateUser(users, selectedUser.value.id, formData);
      } else {
        users := AddUser(users, formData);
      }
      CloseDialog();
    }

    method Delete(id: int)
      requires Valid()
      modifies this`users
      ensures Valid()
      ensures users == DeleteUser(old(users), id)
    {
      OperationsKeepIdsUnique(users, id, formData);
      users := DeleteUser(users, id);
    }
  }
}
