/** The authentication slice: the demo credential rule, the role read off the
    e-mail address, and the session's loading/authenticated state. */
module AuthSlice {
  import opened Common

  datatype Role = Admin | Team | Client

  /** The role's label as the views compare and search for it. */
  function RoleName(r: Role): string
  {
    match r
    case Admin => "admin"
    case Team => "team"
    case Client => "client"
  }

  datatype User = User(id: int, name: string, email: string, role: Role, permissions: seq<string>)

  /** `user?.role === r`: false when nobody is logged in. */
  predicate HasRole(user: Option<User>, r: Role)
  {
    user.Some? && user.value.role == r
  }

  /** The three addresses accepted with any password. */
  const DemoEmails: seq<string> := ["admin@company.com", "team@company.com", "client@company.com"]

  const DemoPassword: string := "demo123"

  const InvalidCredentials: string := "Invalid credentials"

  /** 'admin' if the address contains "admin", else 'team' if it contains
      "team", else 'client'. */
  function RoleFor(email: string): (r: Role)
    ensures r == Admin <==> Includes(email, "admin")
    ensures r == Team <==> !Includes(email, "admin") && Includes(email, "team")
    ensures r == Client <==> !Includes(email, "admin") && !Includes(email, "team")
  {
    if Includes(email, "admin") then Admin
    else if Includes(email, "team") then Team
    else Client
  }

  /** The fixed user record of each role, carrying the address that was typed. */
  function MockUser(role: Role, email: string): (u: User)
    ensures u.role == role && u.email == email
  {
    match role
    case Admin => User(1, "Admin User", email, Admin, ["all"])
    case Team => User(2, "Team Member", email, Team, ["view_assigned_projects", "update_tasks", "log_timesheets"])
    case Client => User(3, "Client POC", email, Client, ["view_own_projects", "client_approval"])
  }

  /** `loginUser`: rejected exactly when the address is not a demo address
      and the password is not the demo password. */
  function LoginUser(email: string, password: string): (r: Result<User, string>)
    ensures r.Err? <==> email !in DemoEmails && password != DemoPassword
    ensures r.Err? ==> r.error == InvalidCredentials
    ensures r.Ok? ==> r.value == MockUser(RoleFor(email), email)
  {
    if email !in DemoEmails && password != DemoPassword then Err(InvalidCredentials)
    else Ok(MockUser(RoleFor(email), email))
  }

  /** The role each demo address is given. */
  lemma DemoAddressRoles()
    ensures RoleFor("admin@company.com") == Admin
    ensures RoleFor("team@company.com") == Team
    ensures RoleFor("client@company.com") == Client
  {
    assert OccursAt("admin@company.com", "admin", 0);
    assert OccursAt("team@company.com", "team", 0);
    TeamAddressHasNoAdmin();
    ClientAddressHasNoAdmin();
    ClientAddressHasNoTeam();
  }

  /** Each demo address logs in, with any password, as its own role. */
  lemma DemoAddressesLogIn(password: string)
    ensures LoginUser("admin@company.com", password) == Ok(MockUser(Admin, "admin@company.com"))
    ensures LoginUser("team@company.com", password) == Ok(MockUser(Team, "team@company.com"))
    ensures LoginUser("client@company.com", password) == Ok(MockUser(Client, "client@company.com"))
  {
    DemoAddressRoles();
    assert DemoEmails == ["admin@company.com", "team@company.com", "client@company.com"];
  }

  /** Any other address logs in with the demo password and takes the role
      its text suggests: "admin" wins over "team". */
  lemma AdminWinsOverTeam(email: string)
    requires Includes(email, "admin") && Includes(email, "team")
    ensures LoginUser(email, DemoPassword).Ok? && LoginUser(email, DemoPassword).value.role == Admin
  {
  }

  /** A string in which `sub`'s first two characters never appear side by
      side does not include `sub`. */
  lemma NotIncluded(s: string, sub: string)
    requires |sub| >= 2
    requires forall i :: 0 <= i < |s| - 1 ==> s[i] != sub[0] || s[i + 1] != sub[1]
    ensures !Includes(s, sub)
  {
    forall i: nat ensures !OccursAt(s, sub, i) {
      if i + |sub| <= |s| {
        assert s[i..i + |sub|][0] == s[i];
        assert s[i..i + |sub|][1] == s[i + 1];
      }
    }
  }

  lemma TeamAddressHasNoAdmin()
    ensures !Includes("team@company.com", "admin")
  {
    NotIncluded("team@company.com", "admin");
  }

  lemma ClientAddressHasNoAdmin()
    ensures !Includes("client@company.com", "admin")
  {
    NotIncluded("client@company.com", "admin");
  }

  lemma ClientAddressHasNoTeam()
    ensures !Includes("client@company.com", "team")
  {
    NotIncluded("client@company.com", "team");
  }

  class AuthStore {
    var user: Option<User>
    var isAuthenticated: bool
    var isLoading: bool
    var error: Option<string>
    var token: Option<string>

    constructor ()
      ensures user == None && !isAuthenticated && !isLoading && error == None && token == None
    {
      user := None;
      isAuthenticated := false;
      isLoading := false;
      error := None;
      token := None;
    }

    method LoginPending()
      modifies this
      ensures isLoading && error == None
      ensures user == old(user) && isAuthenticated == old(isAuthenticated) && token == old(token)
    {
      isLoading := true;
      error := None;
    }

    method LoginFulfilled(u: User)
      modifies this
      ensures !isLoading && isAuthenticated && user == Some(u) && error == None
      ensures token == old(token)
    {
      isLoading := false;
      isAuthenticated := true;
      user := Some(u);
      error := None;
    }

    method LoginRejected(message: string)
      modifies this
      ensures !isLoading && error == Some(message)
      ensures user == old(user) && isAuthenticated == old(isAuthenticated) && token == old(token)
    {
      isLoading := false;
      error := Some(message);
    }

    /** A whole login: pending, then fulfilled or rejected by the credential rule. */
    method Login(email: string, password: string)
      modifies this
      ensures !isLoading && token == old(token)
      ensures LoginUser(email, password).Ok? ==>
        isAuthenticated && user == Some(LoginUser(email, password).value) && error == None
      ensures LoginUser(email, password).Err? ==>
        user == old(user) && isAuthenticated == old(isAuthenticated) && error == Some(InvalidCredentials)
    {
      LoginPending();
      var outcome := LoginUser(email, password);
      match outcome
      case Ok(u) => LoginFulfilled(u);
      case Err(message) => LoginRejected(message);
    }

    /** Logout clears the session but leaves `isLoading` as it was. */
    method LogoutFulfilled()
      modifies this
      ensures user == None && !isAuthenticated && token == None && error == None
      ensures isLoading == old(isLoading)
    {
      user := None;
      isAuthenticated := false;
      token := None;
      error := None;
    }

    method ClearError()
      modifies this
      ensures error == None
      ensures user == old(user) && isAuthenticated == old(isAuthenticated) && isLoading == old(isLoading) && token == old(token)
    {
      error := None;
    }

    method SetToken(t: Option<string>)
      modifies this
      ensures token == t
      ensures user == old(user) && isAuthenticated == old(isAuthenticated) && isLoading == old(isLoading) && error == old(error)
    {
      token := t;
    }
  }
}
