/** The user registry of auth.py: a JSON object in a file, keyed by username. The password
    digest (SHA-256 in hex) is left uninterpreted: the registry is given it as a function. */
module Auth {
  import opened Common

  /** One user entry; `role` is None when the entry has no 'role' key. */
  datatype UserRecord = UserRecord(password: string, createdAt: string, role: Option<string>)

  type Users = map<string, UserRecord>

  /** The users file: missing, present but not readable as JSON, or holding the object. */
  datatype UsersFile = NoFile | Unreadable | Saved(users: Users)

  /** load_users: the stored object, or {} when the file is missing or does not decode. */
  function LoadUsers(file: UsersFile): Users
  {
    if file.Saved? then file.users else map[]
  }

  /** `users[name].get('role', 'user')`. */
  function RoleOf(r: UserRecord): string
  {
    if r.role.Some? then r.role.value else "user"
  }

  /** The entry register_user writes for a new user. */
  function NewUser(hash: string -> string, password: string, now: string): UserRecord
  {
    UserRecord(hash(password), now, Some("user"))
  }

  /** authenticate_user: the name is known and the digest of the password is the stored one. */
  predicate Authenticates(users: Users, u: string, password: string, hash: string -> string)
  {
    u in users && users[u].password == hash(password)
  }

  /** is_admin: a known user whose role is 'admin', or a known user named 'admin'. */
  predicate IsAdminUser(users: Users, u: string)
  {
    u in users && (RoleOf(users[u]) == "admin" || u == "admin")
  }

  /** The object register_user leaves: unchanged for a taken name, otherwise the old object
      with one new entry. */
  function Registered(users: Users, u: string, password: string, now: string,
                      hash: string -> string): (r: Users)
    ensures u in users ==> r == users
    ensures u !in users ==> r.Keys == users.Keys + {u} && r[u] == NewUser(hash, password, now)
    ensures forall v :: v in users ==> v in r && r[v] == users[v]
  {
    if u in users then users else users[u := NewUser(hash, password, now)]
  }

  /** The two demo accounts of initialize_demo_users. */
  function DemoUsers(hash: string -> string, farmerCreated: string, adminCreated: string): Users
  {
    map[
      "farmer1" := UserRecord(hash("demo123"), farmerCreated, Some("user")),
      "admin" := UserRecord(hash("admin123"), adminCreated, Some("admin"))]
  }

  /** A freshly registered user can log in with the password they registered with, and with
      any other password whose digest coincides, and with no other. */
  lemma RegisterThenAuthenticate(users: Users, u: string, password: string, attempt: string,
                                 now: string, hash: string -> string)
    requires u !in users
    ensures Authenticates(Registered(users, u, password, now, hash), u, attempt, hash)
            <==> hash(attempt) == hash(password)
  {
  }

  /** Registering never changes whether anybody else can log in or is an admin, and a taken
      name's password is never replaced. */
  lemma RegisterKeepsOthers(users: Users, u: string, password: string, now: string,
                            hash: string -> string, v: string, attempt: string)
    requires v != u || u in users
    ensures Authenticates(Registered(users, u, password, now, hash), v, attempt, hash)
            == Authenticates(users, v, attempt, hash)
    ensures IsAdminUser(Registered(users, u, password, now, hash), v) == IsAdminUser(users, v)
  {
  }

  /** A self-registered user gets the role 'user', so a new account is an admin exactly when
      its name is 'admin'. */
  lemma RegisteredAdminOnlyByName(users: Users, u: string, password: string, now: string,
                                  hash: string -> string)
    requires u !in users
    ensures IsAdminUser(Registered(users, u, password, now, hash), u) <==> u == "admin"
  {
  }

  /** The demo registry: farmer1 logs in with demo123 and is not an admin, admin logs in
      with admin123 and is one, and nobody else is known. */
  lemma DemoAccounts(hash: string -> string, t1: string, t2: string, u: string, password: string)
    ensures Authenticates(DemoUsers(hash, t1, t2), "farmer1", "demo123", hash)
    ensures Authenticates(DemoUsers(hash, t1, t2), "admin", "admin123", hash)
    ensures !IsAdminUser(DemoUsers(hash, t1, t2), "farmer1")
    ensures IsAdminUser(DemoUsers(hash, t1, t2), "admin")
    ensures u != "farmer1" && u != "admin" ==>
              !Authenticates(DemoUsers(hash, t1, t2), u, password, hash)
              && !IsAdminUser(DemoUsers(hash, t1, t2), u)
  {
    assert "farmer1" != "admin";
  }

  /** The users file together with the digest function the module uses. */
  class UserRegistry {
    const hashPassword: string -> string
    var file: UsersFile

    constructor (hashPassword: string -> string, file: UsersFile)
      ensures this.hashPassword == hashPassword && this.file == file
    {
      this.hashPassword := hashPassword;
      this.file := file;
    }

    function Users(): Users
      reads this
    {
      LoadUsers(file)
    }

    /** register_user: refuses a taken name and leaves the file alone; otherwise writes back
        the loaded object with the new entry (so an unreadable file is replaced by a file
        holding only the new user). */
    method RegisterUser(u: string, password: string, now: string) returns (ok: bool)
      modifies this
      ensures ok <==> u !in old(Users())
      ensures ok ==> file == Saved(Registered(old(Users()), u, password, now, hashPassword))
      ensures !ok ==> file == old(file)
    {
      var users := LoadUsers(file);
      if u in users {
        return false;
      }
      users := users[u := NewUser(hashPassword, password, now)];
      file := Saved(users);
      ok := true;
    }

    /** authenticate_user. */
    method AuthenticateUser(u: string, password: string) returns (ok: bool)
      ensures ok == Authenticates(LoadUsers(file), u, password, hashPassword)
    {
      var users := LoadUsers(file);
      if u in users {
        var hashed := hashPassword(password);
        return users[u].password == hashed;
      }
      return false;
    }

    /** is_admin. */
    method IsAdmin(u: string) returns (admin: bool)
      ensures admin == IsAdminUser(LoadUsers(file), u)
    {
      var users := LoadUsers(file);
      if u in users {
        return RoleOf(users[u]) == "admin" || u == "admin";
      }
      return false;
    }

    /** initialize_demo_users: acts only when no file exists; an existing file, readable or
        not, is left as it is. */
    method InitializeDemoUsers(farmerCreated: string, adminCreated: string)
      modifies this
      ensures old(file) == NoFile ==> file == Saved(DemoUsers(hashPassword, farmerCreated, adminCreated))
      ensures old(file) != NoFile ==> file == old(file)
    {
      if file == NoFile {
        file := Saved(DemoUsers(hashPassword, farmerCreated, adminCreated));
      }
    }
  }
}
