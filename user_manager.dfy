/** The user table: a dictionary from user name to `{username, password, role}`, with
    login and the role-gated register, delete and role-update operations. */
module UserManagement {
  import opened Outcomes
  import opened Text

  datatype UserRecord = UserRecord(username: string, password: string, role: string)

  type Table = map<string, UserRecord>

  /** The two exception classes the operations raise. */
  datatype UserError = PermissionError(message: string) | ValueError(message: string)

  /** What an operation replies (its return value or the exception it raises) and the
      table it leaves behind. */
  datatype Change = Change(reply: Result<string, UserError>, table: Table)

  const AdminRole := "Admin"
  const MasterAdminRole := "Master Admin"

  /** Register is open to Admin and Master Admin. */
  predicate MayRegister(creatorRole: string) {
    creatorRole == AdminRole || creatorRole == MasterAdminRole
  }

  /** Every key maps to a record that carries that key as its user name. */
  ghost predicate Consistent(t: Table) {
    forall name :: name in t ==> t[name].username == name
  }

  /** The table created when no store exists yet: the single master account. */
  function DefaultTable(): (t: Table)
    ensures Consistent(t)
    ensures t.Keys == {"master"} && t["master"].role == MasterAdminRole
  {
    map["master" := UserRecord("master", "123", MasterAdminRole)]
  }

  /** `login`: both inputs are stripped, then the stripped name is looked up and its stored
      password compared with the stripped password. */
  function Authenticate(t: Table, username: string, password: string): (u: Option<UserRecord>)
    ensures u.Some? <==> Strip(username) in t && t[Strip(username)].password == Strip(password)
    ensures u.Some? ==> u.value == t[Strip(username)]
    ensures u.Some? && Consistent(t) ==> u.value.username == Strip(username)
  {
    var name := Strip(username);
    if name in t && t[name].password == Strip(password) then Some(t[name]) else None
  }

  /** `register_user`: the role check comes first, then the duplicate check; only a
      success changes the table, and then by exactly one new entry. */
  function Register(t: Table, creatorRole: string, newUsername: string, newPassword: string,
                    newRole: string): (c: Change)
    ensures c.reply.Err? ==> c.table == t
    ensures (c.reply.Err? && c.reply.error.PermissionError?) <==> !MayRegister(creatorRole)
    ensures (c.reply.Err? && c.reply.error.ValueError?) <==> MayRegister(creatorRole) && newUsername in t
    ensures c.reply.Ok? ==> newUsername !in t
    ensures c.reply.Ok? ==> c.table.Keys == t.Keys + {newUsername}
    ensures c.reply.Ok? ==> c.table[newUsername] == UserRecord(newUsername, newPassword, newRole)
    ensures c.reply.Ok? ==> forall name :: name in t ==> c.table[name] == t[name]
    ensures Consistent(t) ==> Consistent(c.table)
  {
    if !MayRegister(creatorRole) then
      Change(Err(PermissionError("Only Admins can register new users.")), t)
    else if newUsername in t then
      Change(Err(ValueError("Username already exists.")), t)
    else
      Change(Ok("User '" + newUsername + "' created successfully."),
             t[newUsername := UserRecord(newUsername, newPassword, newRole)])
  }

  /** `delete_user`: only Master Admin (checked first), only an existing user; a success
      removes that one key and nothing else. */
  function Delete(t: Table, creatorRole: string, targetUsername: string): (c: Change)
    ensures c.reply.Err? ==> c.table == t
    ensures (c.reply.Err? && c.reply.error.PermissionError?) <==> creatorRole != MasterAdminRole
    ensures (c.reply.Err? && c.reply.error.ValueError?) <==>
            creatorRole == MasterAdminRole && targetUsername !in t
    ensures c.reply.Ok? ==> targetUsername in t && c.table.Keys == t.Keys - {targetUsername}
    ensures c.reply.Ok? ==> forall name :: name in c.table ==> c.table[name] == t[name]
    ensures Consistent(t) ==> Consistent(c.table)
  {
    if creatorRole != MasterAdminRole then
      Change(Err(PermissionError("Only Master Admin can delete users.")), t)
    else if targetUsername !in t then
      Change(Err(ValueError("User not found.")), t)
    else
      Change(Ok("User '" + targetUsername + "' deleted."), t - {targetUsername})
  }

  /** `update_role`: only Master Admin (checked first), only an existing user; a success
      rewrites that user's role field and nothing else. */
  function UpdateRole(t: Table, creatorRole: string, targetUsername: string, newRole: string)
    : (c: Change)
    ensures c.reply.Err? ==> c.table == t
    ensures (c.reply.Err? && c.reply.error.PermissionError?) <==> creatorRole != MasterAdminRole
    ensures (c.reply.Err? && c.reply.error.ValueError?) <==>
            creatorRole == MasterAdminRole && targetUsername !in t
    ensures c.reply.Ok? ==> targetUsername in t && c.table.Keys == t.Keys
    ensures c.reply.Ok? ==> c.table[targetUsername].role == newRole
    ensures c.reply.Ok? ==> c.table[targetUsername].username == t[targetUsername].username
    ensures c.reply.Ok? ==> c.table[targetUsername].password == t[targetUsername].password
    ensures c.reply.Ok? ==> forall name :: name in t && name != targetUsername ==> c.table[name] == t[name]
    ensures Consistent(t) ==> Consistent(c.table)
  {
    if creatorRole != MasterAdminRole then
      Change(Err(PermissionError("Only Master Admin can update user roles.")), t)
    else if targetUsername !in t then
      Change(Err(ValueError("User not found.")), t)
    else
      Change(Ok("User '" + targetUsername + "' is now a " + newRole + "."),
             t[targetUsername := t[targetUsername].(role := newRole)])
  }

  /** Surrounding whitespace in either input does not stop the master account from
      logging in. */
  lemma DefaultLoginIgnoresSurroundingSpaces()
    ensures Authenticate(DefaultTable(), "master ", " 123") == Some(UserRecord("master", "123", MasterAdminRole))
  {
    StripTrailingSpace();
    StripLeadingSpace();
  }

  lemma StripTrailingSpace()
    ensures Strip("master ") == "master"
  {
    var name := "master ";
    assert !IsSpace(name[0]) && IsSpace(name[6]) && !IsSpace(name[5]);
    assert SkipForward(name, 0) == 0;
    assert SkipBackward(name, 0, 7) == SkipBackward(name, 0, 6) == 6;
    assert name[0..6] == "master";
  }

  lemma StripLeadingSpace()
    ensures Strip(" 123") == "123"
  {
  }

  /** A freshly registered user can log in with the name and password just given, as long as
      neither carries surrounding whitespace (login strips its inputs, register does not). */
  lemma RegisteredUserCanLogin(t: Table, creatorRole: string, newUsername: string,
                               newPassword: string, newRole: string, typedName: string, typedPassword: string)
    requires Register(t, creatorRole, newUsername, newPassword, newRole).reply.Ok?
    requires Strip(typedName) == newUsername && Strip(typedPassword) == newPassword
    ensures Authenticate(Register(t, creatorRole, newUsername, newPassword, newRole).table, typedName, typedPassword)
            == Some(UserRecord(newUsername, newPassword, newRole))
  {
  }

  /** The converse: `register_user` stores the name and password as given, so a user
      registered with surrounding whitespace in either can never log in as that record. */
  lemma UntrimmedRegistrationCannotLogin(t: Table, creatorRole: string, newUsername: string,
                                         newPassword: string, newRole: string,
                                         typedName: string, typedPassword: string)
    requires Consistent(t)
    requires Register(t, creatorRole, newUsername, newPassword, newRole).reply.Ok?
    requires !Trimmed(newUsername) || !Trimmed(newPassword)
    ensures Authenticate(Register(t, creatorRole, newUsername, newPassword, newRole).table, typedName, typedPassword)
            != Some(UserRecord(newUsername, newPassword, newRole))
  {
  }

  /** After a deletion nobody can log in under the deleted name. */
  lemma DeletedUserCannotLogin(t: Table, creatorRole: string, targetUsername: string,
                               typedName: string, typedPassword: string)
    requires Delete(t, creatorRole, targetUsername).reply.Ok?
    requires Strip(typedName) == targetUsername
    ensures Authenticate(Delete(t, creatorRole, targetUsername).table, typedName, typedPassword).None?
  {
  }

  /** A role update changes who holds which role, not who can log in. */
  lemma UpdateRoleKeepsCredentials(t: Table, creatorRole: string, targetUsername: string,
                                   newRole: string, typedName: string, typedPassword: string)
    ensures Authenticate(UpdateRole(t, creatorRole, targetUsername, newRole).table, typedName, typedPassword).Some?
            <==> Authenticate(t, typedName, typedPassword).Some?
  {
  }

  /** `UserManager`: owns the table and changes it in place. Writing the table back to the
      JSON store after each change is not modelled. */
  class UserManager {
    var users: Table

    /** `_load_users`: the stored table if a store exists, the default table otherwise. */
    constructor (stored: Option<Table>)
      ensures stored.None? ==> users == DefaultTable()
      ensures stored.Some? ==> users == stored.value
    {
      if stored.None? {
        users := map["master" := UserRecord("master", "123", MasterAdminRole)];
      } else {
        users := stored.value;
      }
    }

    /** `login` on the current table. */
    function Login(username: string, password: string): (u: Option<UserRecord>)
      reads this
      ensures u == Authenticate(users, username, password)
    {
      Authenticate(users, username, password)
    }

    method RegisterUser(creatorRole: string, newUsername: string, newPassword: string, newRole: string)
      returns (reply: Result<string, UserError>)
      modifies this
      ensures Change(reply, users) == Register(old(users), creatorRole, newUsername, newPassword, newRole)
    {
      if !MayRegister(creatorRole) {
        return Err(PermissionError("Only Admins can register new users."));
      }
      if newUsername in users {
        return Err(ValueError("Username already exists."));
      }
      users := users[newUsername := UserRecord(newUsername, newPassword, newRole)];
      reply := Ok("User '" + newUsername + "' created successfully.");
    }

    method DeleteUser(creatorRole: string, targetUsername: string)
      returns (reply: Result<string, UserError>)
      modifies this
      ensures Change(reply, users) == Delete(old(users), creatorRole, targetUsername)
    {
      if creatorRole != MasterAdminRole {
        return Err(PermissionError("Only Master Admin can delete users."));
      }
      if targetUsername !in users {
        return Err(ValueError("User not found."));
      }
      users := users - {targetUsername};
      reply := Ok("User '" + targetUsername + "' deleted.");
    }

    method UpdateUserRole(creatorRole: string, targetUsername: string, newRole: string)
      returns (reply: Result<string, UserError>)
      modifies this
      ensures Change(reply, users) == UpdateRole(old(users), creatorRole, targetUsername, newRole)
    {
      if creatorRole != MasterAdminRole {
        return Err(PermissionError("Only Master Admin can update user roles."));
      }
      if targetUsername !in users {
        return Err(ValueError("User not found."));
      }
      var record := users[targetUsername];
      users := users[targetUsername := record.(role := newRole)];
      reply := Ok("User '" + targetUsername + "' is now a " + newRole + ".");
    }
  }
}
