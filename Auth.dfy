/** The session of the mock service layer: who is logged in. Login accepts
    three built-in test accounts by e-mail and password, and any account of
    the user directory by e-mail alone; registration only signs the new
    account in, without adding it to the directory. */
module Auth {
  import opened Common
  import opened Users

  /** The signed-in user as the session keeps it. */
  datatype AuthUser = AuthUser(id: int, name: string, email: string, role: Role)

  datatype Credentials = Credentials(email: string, password: string)

  /** The roles the sign-up form offers: an administrator cannot register. */
  type SignUpRole = r: Role | r != Admin witness Renter

  /** What the sign-up form supplies. */
  datatype RegisterData = RegisterData(name: string, email: string, password: string, phone: string, role: SignUpRole)

  /** The answer to a login or a registration. */
  datatype AuthResponse = AuthResponse(user: AuthUser, token: Option<string>, success: bool, message: Option<string>)

  /** A built-in account. */
  datatype TestAccount = TestAccount(email: string, password: string, role: Role)

  const TestAccounts: seq<TestAccount> := [
    TestAccount("admin@sailingloc.com", "admin123", Admin),
    TestAccount("owner@example.com", "demo123", Owner),
    TestAccount("renter@example.com", "demo123", Renter)
  ]

  /** The placeholder user of a failed answer. */
  const NoUser: AuthUser := AuthUser(0, "", "", Renter)

  const LoginFailed: string := "Email ou mot de passe incorrect"
  const EmailTaken: string := "Cet email est déjà utilisé"
  const AccountCreated: string := "Compte créé avec succès"

  /** `'mock-jwt-token-' + Date.now()`, the clock reading being a parameter. */
  function Token(stamp: nat): (t: string)
    ensures |t| > 15 && t[..15] == "mock-jwt-token-" && t[15..] == NatString(stamp)
  {
    "mock-jwt-token-" + NatString(stamp)
  }

  /** The session user of a built-in account: fixed id and name per role. */
  function TestUser(a: TestAccount): (u: AuthUser)
    ensures u.email == a.email && u.role == a.role
    ensures a.role == Admin ==> u.id == 999 && u.name == "Admin"
    ensures a.role == Owner ==> u.id == 1 && u.name == "Jean Dupont"
    ensures a.role == Renter ==> u.id == 101 && u.name == "Thomas Petit"
  {
    AuthUser(
      if a.role == Admin then 999 else if a.role == Owner then 1 else 101,
      if a.role == Admin then "Admin" else if a.role == Owner then "Jean Dupont" else "Thomas Petit",
      a.email,
      a.role)
  }

  /** The session user of a directory account. */
  function DirectoryUser(u: User): (a: AuthUser)
    ensures a.id == u.id && a.name == u.name && a.email == u.email && a.role == u.role
  {
    AuthUser(u.id, u.name, u.email, u.role)
  }

  /** A built-in account with exactly these credentials. */
  predicate IsTestLogin(a: TestAccount, c: Credentials)
  {
    a.email == c.email && a.password == c.password
  }

  /** Who a login signs in, if anyone: the first built-in account whose
      e-mail and password both match; otherwise the first directory account
      with that e-mail, whatever the password. */
  function LoginOutcome(users: seq<User>, c: Credentials): (r: Option<AuthUser>)
    ensures forall i :: 0 <= i < |TestAccounts| && IsTestLogin(TestAccounts[i], c) ==> r.Some?
    ensures (exists i :: 0 <= i < |TestAccounts| && IsTestLogin(TestAccounts[i], c)) ==>
              exists i :: FirstMatch(TestAccounts, (a: TestAccount) => IsTestLogin(a, c), i) &&
                          r == Some(TestUser(TestAccounts[i]))
    ensures (forall i :: 0 <= i < |TestAccounts| ==> !IsTestLogin(TestAccounts[i], c)) ==>
              (r.None? <==> forall u :: u in users ==> u.email != c.email) &&
              (r.Some? ==> exists i :: FirstMatch(users, (u: User) => u.email == c.email, i) &&
                                       r == Some(DirectoryUser(users[i])))
  {
    var testAccount := Find(TestAccounts, (a: TestAccount) => IsTestLogin(a, c));
    if testAccount.Some? then Some(TestUser(testAccount.value))
    else
      var user := Find(users, (u: User) => u.email == c.email);
      if user.Some? then Some(DirectoryUser(user.value)) else None
  }

  /** The account a registration would sign in, or None when the e-mail is
      already in the directory. */
  function RegisterOutcome(users: seq<User>, data: RegisterData): (r: Option<AuthUser>)
    requires |users| > 0
    ensures r.None? <==> exists u :: u in users && u.email == data.email
    ensures r.Some? ==> r.value.name == data.name && r.value.email == data.email && r.value.role == data.role
    ensures r.Some? ==> r.value.id == MaxOf(Keys(users, UserId)) + 1 && forall u :: u in users ==> u.id < r.value.id
  {
    var existing := Find(users, (u: User) => u.email == data.email);
    if existing.Some? then None
    else
      var ids := Keys(users, UserId);
      var newId := MaxOf(ids) + 1;
      assert forall u :: u in users ==> u.id < newId by {
        forall u | u in users
          ensures u.id < newId
        {
          var i :| 0 <= i < |users| && users[i] == u;
          assert ids[i] in ids;
        }
      }
      Some(AuthUser(newId, data.name, data.email, data.role))
  }

  /** The three built-in accounts log in with their passwords, each as its
      fixed user. */
  lemma TestAccountsLogIn(users: seq<User>)
    ensures LoginOutcome(users, Credentials("admin@sailingloc.com", "admin123")) ==
            Some(AuthUser(999, "Admin", "admin@sailingloc.com", Admin))
    ensures LoginOutcome(users, Credentials("owner@example.com", "demo123")) ==
            Some(AuthUser(1, "Jean Dupont", "owner@example.com", Owner))
    ensures LoginOutcome(users, Credentials("renter@example.com", "demo123")) ==
            Some(AuthUser(101, "Thomas Petit", "renter@example.com", Renter))
  {
    assert IsTestLogin(TestAccounts[0], Credentials("admin@sailingloc.com", "admin123"));
    assert IsTestLogin(TestAccounts[1], Credentials("owner@example.com", "demo123"));
    assert !IsTestLogin(TestAccounts[0], Credentials("owner@example.com", "demo123"));
    assert IsTestLogin(TestAccounts[2], Credentials("renter@example.com", "demo123"));
    assert !IsTestLogin(TestAccounts[0], Credentials("renter@example.com", "demo123"));
    assert !IsTestLogin(TestAccounts[1], Credentials("renter@example.com", "demo123"));
  }

  /** Outside the built-in accounts, the password plays no part: a
      directory e-mail logs in with any password, as its first account. */
  lemma PasswordIgnoredForDirectory(users: seq<User>, email: string, p1: string, p2: string)
    requires forall i :: 0 <= i < |TestAccounts| ==> TestAccounts[i].email != email
    requires exists u :: u in users && u.email == email
    ensures LoginOutcome(users, Credentials(email, p1)).Some?
    ensures LoginOutcome(users, Credentials(email, p1)) == LoginOutcome(users, Credentials(email, p2))
  {
    var c1, c2 := Credentials(email, p1), Credentials(email, p2);
    assert forall i :: 0 <= i < |TestAccounts| ==> !IsTestLogin(TestAccounts[i], c1) && !IsTestLogin(TestAccounts[i], c2);
  }

  /** Registration does not add the account to the directory, so its e-mail
      and password do not log in later unless a built-in account uses that
      e-mail. */
  lemma RegisteredEmailCannotLogIn(users: seq<User>, data: RegisterData)
    requires |users| > 0
    requires RegisterOutcome(users, data).Some?
    requires forall i :: 0 <= i < |TestAccounts| ==> TestAccounts[i].email != data.email
    ensures LoginOutcome(users, Credentials(data.email, data.password)).None?
  {
    var c := Credentials(data.email, data.password);
    assert forall i :: 0 <= i < |TestAccounts| ==> !IsTestLogin(TestAccounts[i], c);
  }

  class AuthService {
    var currentUser: Option<AuthUser>

    constructor()
      ensures currentUser == None
    {
      currentUser := None;
    }

    /** login: signs in the outcome's user and answers with a token, or
        answers failure and leaves the session as it was. */
    method Login(credentials: Credentials, users: seq<User>, stamp: nat) returns (r: AuthResponse)
      modifies this
      ensures var who := LoginOutcome(users, credentials);
        && (who.Some? ==> currentUser == who && r == AuthResponse(who.value, Some(Token(stamp)), true, None))
        && (who.None? ==> currentUser == old(currentUser) &&
                          r == AuthResponse(NoUser, None, false, Some(LoginFailed)))
    {
      var testAccount := Find(TestAccounts, (a: TestAccount) => IsTestLogin(a, credentials));
      if testAccount.Some? {
        currentUser := Some(TestUser(testAccount.value));
        return AuthResponse(currentUser.value, Some(Token(stamp)), true, None);
      }
      var user := Find(users, (u: User) => u.email == credentials.email);
      if user.Some? {
        currentUser := Some(DirectoryUser(user.value));
        return AuthResponse(currentUser.value, Some(Token(stamp)), true, None);
      }
      return AuthResponse(NoUser, None, false, Some(LoginFailed));
    }

    /** register: refuses an e-mail of the directory and leaves the session
        as it was; otherwise signs in the new account under the next id
        after the directory's largest. The directory is a parameter and is
        not changed. */
    method Register(data: RegisterData, users: seq<User>, stamp: nat) returns (r: AuthResponse)
      requires |users| > 0
      modifies this
      ensures var who := RegisterOutcome(users, data);
        && (who.None? ==> currentUser == old(currentUser) &&
                          r == AuthResponse(NoUser, None, false, Some(EmailTaken)))
        && (who.Some? ==> currentUser == who &&
                          r == AuthResponse(who.value, Some(Token(stamp)), true, Some(AccountCreated)))
    {
      var existingUser := Find(users, (u: User) => u.email == data.email);
      if existingUser.Some? {
        return AuthResponse(NoUser, None, false, Some(EmailTaken));
      }
      var newUser := AuthUser(MaxOf(Keys(users, UserId)) + 1, data.name, data.email, data.role);
      currentUser := Some(newUser);
      return AuthResponse(newUser, Some(Token(stamp)), true, Some(AccountCreated));
    }

    /** logout: ends the session. */
    method Logout()
      modifies this
      ensures currentUser == None
      ensures !IsAuthenticated()
    {
      currentUser := None;
    }

    /** isAuthenticated: someone is signed in. */
    function IsAuthenticated(): (r: bool)
      reads this
      ensures r <==> currentUser.Some?
    {
      currentUser != None
    }

    /** getCurrentUser: the signed-in user, or null. */
    function GetCurrentUser(): (r: Option<AuthUser>)
      reads this
      ensures r.Some? <==> IsAuthenticated()
      ensures r.Some? ==> r == currentUser
    {
      currentUser
    }
  }
}
