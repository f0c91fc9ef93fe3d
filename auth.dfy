/**
 * The mock authentication context: an in-memory account table keyed by employee id,
 * and the signed-in user, changed by login, administrator login, signup and logout.
 */
module Auth {
  import opened Wrappers
  import opened JsSemantics

  datatype ClearanceLevel = StandardClearance | AdminClearance

  datatype Role = StaffRole | AdminRole

  datatype User = User(
    employeeId: string,
    name: string,
    department: string,
    clearanceLevel: ClearanceLevel,
    role: Role)

  /** One entry of the account table. */
  datatype Account = Account(password: string, user: User)

  /** `MOCK_USERS` as the module loads it. */
  function MockUsers(): (users: map<string, Account>)
    ensures users.Keys == {"EMP-4729", "EMP-0001", "EMP-0002"}
    ensures forall id :: id in users ==> users[id].user.employeeId == id
    ensures forall id :: id in users ==>
              (users[id].user.role == AdminRole <==> users[id].user.clearanceLevel == AdminClearance)
  {
    map[
      "EMP-4729" := Account("password123",
        User("EMP-4729", "Sarah Johnson", "Sales", StandardClearance, StaffRole)),
      "EMP-0001" := Account("admin123",
        User("EMP-0001", "Jane Wilson", "Compliance", AdminClearance, AdminRole)),
      "EMP-0002" := Account("admin123",
        User("EMP-0002", "Robert Martinez", "Compliance", AdminClearance, AdminRole))
    ]
  }

  /** Every key of the table is the employee id of the user stored under it. */
  ghost predicate WellKeyed(users: map<string, Account>) {
    forall id :: id in users ==> users[id].user.employeeId == id
  }

  /** The check `login` and `loginAsAdmin` make, for the role each admits. */
  predicate Accepts(users: map<string, Account>, id: string, password: string, role: Role) {
    id in users && users[id].password == password && users[id].user.role == role
  }

  /** The user `signup` creates. */
  function NewStaffUser(id: string, name: string, department: string): User {
    User(id, name, department, StandardClearance, StaffRole)
  }

  /** `isAuthenticated: !!user`: a user object is truthy, no user is not. */
  function IsAuthenticated(user: Option<User>): (b: bool)
    ensures b <==> user != None
  {
    user.Some?
  }

  /** `isAdmin: user?.role === 'admin'`: false when nobody is signed in. */
  function IsAdmin(user: Option<User>): (b: bool)
    ensures b <==> IsAuthenticated(user) && user.value.role == AdminRole
  {
    user.Some? && user.value.role == AdminRole
  }

  /** An administrator is always signed in. */
  lemma AdminIsAuthenticated(user: Option<User>)
    ensures IsAdmin(user) ==> IsAuthenticated(user)
  {
  }

  /** No credentials pass both the staff and the administrator check. */
  lemma LoginPathsExclusive(users: map<string, Account>, id: string, password: string)
    ensures !(Accepts(users, id, password, StaffRole) && Accepts(users, id, password, AdminRole))
  {
  }

  /** The shipped accounts: one staff member and two administrators. */
  lemma MockAccounts()
    ensures WellKeyed(MockUsers())
    ensures Accepts(MockUsers(), "EMP-4729", "password123", StaffRole)
    ensures Accepts(MockUsers(), "EMP-0001", "admin123", AdminRole)
    ensures Accepts(MockUsers(), "EMP-0002", "admin123", AdminRole)
    ensures !Accepts(MockUsers(), "EMP-0001", "admin123", StaffRole)
    ensures !Accepts(MockUsers(), "EMP-4729", "password123", AdminRole)
  {
  }

  /** The `if (MOCK_USERS[employeeId])` test of `signup`, as the source writes it. */
  predicate SignupRefusesAsWritten(users: map<string, Account>, id: string): (refused: bool)
    ensures refused <==> id in users || id in ObjectPrototypeMembers
  {
    !Lookup(users, id).Undefined?
  }

  /** "toString" is refused although no account has that id. */
  lemma SignupAsWrittenRefusesPrototypeNames()
    ensures "toString" !in MockUsers()
    ensures SignupRefusesAsWritten(MockUsers(), "toString")
  {
  }

  /** The authentication context: the account table and the signed-in user. */
  class AuthState {
    var users: map<string, Account>
    var user: Option<User>

    /** The table is well keyed and the signed-in user is the user of its own entry. */
    ghost predicate Valid()
      reads this
    {
      && WellKeyed(users)
      && (user.Some? ==> user.value.employeeId in users &&
                         users[user.value.employeeId].user == user.value)
    }

    constructor ()
      ensures Valid()
      ensures users == MockUsers() && user == None
    {
      users := MockUsers();
      user := None;
    }

    /** `login`: succeeds exactly for the right password of a staff account. */
    method Login(id: string, password: string) returns (ok: bool)
      requires Valid()
      modifies this`user
      ensures Valid()
      ensures ok <==> Accepts(users, id, password, StaffRole)
      ensures user == if ok then Some(users[id].user) else old(user)
    {
      ok := id in users && users[id].password == password && users[id].user.role == StaffRole;
      if ok {
        user := Some(users[id].user);
      }
    }

    /** `loginAsAdmin`: succeeds exactly for the right password of an administrator account. */
    method LoginAsAdmin(id: string, password: string) returns (ok: bool)
      requires Valid()
      modifies this`user
      ensures Valid()
      ensures ok <==> Accepts(users, id, password, AdminRole)
      ensures user == if ok then Some(users[id].user) else old(user)
    {
      ok := id in users && users[id].password == password && users[id].user.role == AdminRole;
      if ok {
        user := Some(users[id].user);
      }
    }

    /**
     * `signup`: refused for an id already in the table; otherwise adds one staff account
     * under the id and signs its user in.
     */
    method Signup(id: string, name: string, department: string, password: string)
      returns (ok: bool)
      requires Valid()
      modifies this
      ensures Valid()
      ensures ok <==> id !in old(users)
      ensures ok ==> users == old(users)[id := Account(password, NewStaffUser(id, name, department))]
      ensures ok ==> user == Some(NewStaffUser(id, name, department))
      ensures !ok ==> users == old(users) && user == old(user)
    {
      if id in users {
        return false;
      }
      var newUser := NewStaffUser(id, name, department);
      users := users[id := Account(password, newUser)];
      user := Some(newUser);
      ok := true;
    }

    /** `logout`: nobody is signed in afterwards. */
    method Logout()
      requires Valid()
      modifies this`user
      ensures Valid()
      ensures user == None
    {
      user := None;
    }
  }

  /** A new account can sign in through `login` with the password it was created with. */
  method SignupThenLogin(auth: AuthState, id: string, name: string, department: string,
                         password: string)
    returns (signedUp: bool, loggedIn: bool)
    requires auth.Valid()
    modifies auth
    ensures auth.Valid()
    ensures signedUp <==> id !in old(auth.users)
    ensures signedUp ==> loggedIn && auth.user == Some(NewStaffUser(id, name, department))
  {
    signedUp := auth.Signup(id, name, department, password);
    auth.Logout();
    loggedIn := auth.Login(id, password);
  }
}
