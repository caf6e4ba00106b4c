/** The mock user table behind sign-in and sign-up, and the demo accounts
    the login form can fill in. */
module Auth {
  import opened Collections
  import opened Constants
  import opened Text
  import Validations

  datatype UserRole = Admin | User

  /** The role's stored value, one of the user-role constants. */
  function RoleValue(r: UserRole): (v: string)
    ensures v in UserRoles()
    ensures v == "admin" <==> r == Admin
  {
    match r
    case Admin => "admin"
    case User => "user"
  }

  /** `createdAt` is a clock reading in milliseconds. */
  datatype AuthUser = AuthUser(id: string, name: string, email: string, role: UserRole, createdAt: int)

  function SeedUsers(): seq<AuthUser>
  {
    [ AuthUser("admin-1", "Admin User", "admin@taskit.com", Admin, 1704067200000),
      AuthUser("user-1", "John Doe", "john@company.com", User, 1705276800000),
      AuthUser("user-2", "Jane Smith", "jane@startup.io", User, 1705708800000) ]
  }

  ghost predicate EmailsUnique(users: seq<AuthUser>)
  {
    forall i, j :: 0 <= i < j < |users| ==> users[i].email != users[j].email
  }

  lemma SeedEmailsUnique()
    ensures EmailsUnique(SeedUsers())
  {
  }

  function HasEmail(email: string): AuthUser -> bool
  {
    (u: AuthUser) => u.email == email
  }

  /** `mockUsers.find(u => u.email === email)`. */
  function FindByEmail(users: seq<AuthUser>, email: string): Option<AuthUser>
  {
    Find(users, HasEmail(email))
  }

  /** `signIn(email, password)`: the first user with exactly that e-mail,
      provided the password's `length` is at least eight UTF-16 code units,
      whatever they are; no user otherwise. */
  function SignInResult(users: seq<AuthUser>, email: string, password: string): (r: Option<AuthUser>)
    ensures r.Some? <==> JsLength(password) >= 8 && exists i :: 0 <= i < |users| && users[i].email == email
    ensures r.Some? ==> exists i :: 0 <= i < |users| && users[i] == r.value && r.value.email == email &&
                                    forall j :: 0 <= j < i ==> users[j].email != email
  {
    var user := FindByEmail(users, email);
    if user.Some? && JsLength(password) >= 8 then user else None
  }

  /** With unique e-mails, signing in finds the one user with that e-mail
      for any long enough password. */
  lemma SignInFindsOwner(users: seq<AuthUser>, i: nat, password: string)
    requires EmailsUnique(users) && i < |users| && JsLength(password) >= 8
    ensures SignInResult(users, users[i].email, password) == Some(users[i])
  {
    var r := SignInResult(users, users[i].email, password);
    var k :| 0 <= k < |users| && users[k] == r.value && r.value.email == users[i].email &&
             forall j :: 0 <= j < k ==> users[j].email != users[i].email;
    assert !(k < i) && !(i < k);
  }

  /** The length test counts code units: four characters outside the Basic
      Multilingual Plane make a long enough password, for sign-in and for the
      login schema alike. */
  lemma AstralPasswordSignsIn(isEmail: string -> bool)
    ensures var pw := "\U{1F600}\U{1F600}\U{1F600}\U{1F600}";
            |pw| == 4 && JsLength(pw) == 8 &&
            SignInResult(SeedUsers(), "admin@taskit.com", pw) == Some(SeedUsers()[0]) &&
            Validations.Password !in Validations.LoginIssues("admin@taskit.com", pw, isEmail)
  {
    var pw := "\U{1F600}\U{1F600}\U{1F600}\U{1F600}";
    assert JsLength(pw) == 8;
    SeedEmailsUnique();
    SignInFindsOwner(SeedUsers(), 0, pw);
  }

  /** The user a successful sign-up adds: role "user", the given name and
      e-mail, a fresh id and the clock reading. */
  function NewUser(name: string, email: string, freshId: string, now: int): (u: AuthUser)
    ensures u.name == name && u.email == email && u.role == User && RoleValue(u.role) == "user"
  {
    AuthUser(freshId, name, email, User, now)
  }

  datatype SignUpOutcome = Created(user: AuthUser) | AlreadyExists

  /** The table after `signUp`: unchanged when the e-mail is taken, one user
      longer otherwise. */
  function SignedUp(users: seq<AuthUser>, name: string, email: string, freshId: string, now: int): seq<AuthUser>
  {
    if FindByEmail(users, email).Some? then users else users + [NewUser(name, email, freshId, now)]
  }

  /** Sign-up keeps the e-mails unique, and afterwards the new user can sign
      in with any password of at least eight UTF-16 code units. */
  lemma SignUpSpec(users: seq<AuthUser>, name: string, email: string, freshId: string, now: int, password: string)
    requires EmailsUnique(users)
    ensures EmailsUnique(SignedUp(users, name, email, freshId, now))
    ensures FindByEmail(users, email).None? ==>
              SignedUp(users, name, email, freshId, now) == users + [NewUser(name, email, freshId, now)]
    ensures FindByEmail(users, email).None? && JsLength(password) >= 8 ==>
              SignInResult(SignedUp(users, name, email, freshId, now), email, password) ==
              Some(NewUser(name, email, freshId, now))
    ensures FindByEmail(users, email).Some? ==> SignedUp(users, name, email, freshId, now) == users
  {
    var r := SignedUp(users, name, email, freshId, now);
    if FindByEmail(users, email).None? {
      assert r == users + [NewUser(name, email, freshId, now)];
      assert r[|users|] == NewUser(name, email, freshId, now);
      if JsLength(password) >= 8 {
        SignInFindsOwner(r, |users|, password);
      }
    }
  }

  // ---------------------------------------------------------------------
  // Demo accounts
  // ---------------------------------------------------------------------

  datatype DemoAccount = DemoAccount(email: string, password: string, name: string, role: UserRole)

  /** The two demo accounts as declared: the user account's password has
      seven code units. */
  function DemoAccountsAsWritten(): seq<DemoAccount>
  {
    [ DemoAccount("admin@taskit.com", "admin123", "Admin User", Admin),
      DemoAccount("john@company.com", "user123", "John Doe", User) ]
  }

  /** The demo accounts with the user password lengthened to the eight
      code units sign-in and the login schema demand. */
  function DemoAccounts(): seq<DemoAccount>
  {
    [ DemoAccount("admin@taskit.com", "admin123", "Admin User", Admin),
      DemoAccount("john@company.com", "user1234", "John Doe", User) ]
  }

  /** The user demo account the login form fills in is refused twice over:
      the login schema flags its password and sign-in finds nobody. */
  lemma DemoUserCannotSignIn(isEmail: string -> bool)
    ensures var a := DemoAccountsAsWritten()[1];
            SignInResult(SeedUsers(), a.email, a.password).None? &&
            Validations.Password in Validations.LoginIssues(a.email, a.password, isEmail)
  {
  }

  /** Every corrected demo account passes the login schema's password rule,
      and the whole schema when the e-mail check accepts its address, and
      signs in as the seeded user of the same name and role. */
  lemma DemoAccountsSignIn(k: nat, isEmail: string -> bool)
    requires k < |DemoAccounts()|
    ensures var a := DemoAccounts()[k];
            var r := SignInResult(SeedUsers(), a.email, a.password);
            Validations.Password !in Validations.LoginIssues(a.email, a.password, isEmail) &&
            (isEmail(a.email) ==> Validations.LoginIssues(a.email, a.password, isEmail) == {}) &&
            r.Some? && r.value.name == a.name && r.value.role == a.role
  {
    SeedEmailsUnique();
    SignInFindsOwner(SeedUsers(), k, DemoAccounts()[k].password);
  }

  /** The module-level user table. */
  class UserTable {
    var users: seq<AuthUser>

    ghost predicate Valid()
      reads this
    {
      EmailsUnique(users)
    }

    constructor()
      ensures users == SeedUsers() && Valid()
    {
      users := SeedUsers();
    }

    /** `signIn`: a lookup that changes nothing. */
    method SignIn(email: string, password: string) returns (r: Option<AuthUser>)
      ensures r == SignInResult(users, email, password)
    {
      var user := Find(users, HasEmail(email));
      if user.Some? && JsLength(password) >= 8 {
        r := user;
      } else {
        r := None;
      }
    }

    /** `signUp`: "User already exists" for a taken e-mail, with the table
        unchanged; otherwise the new user is pushed and returned. */
    method SignUp(name: string, email: string, freshId: string, now: int) returns (outcome: SignUpOutcome)
      requires Valid()
      modifies this
      ensures Valid()
      ensures users == SignedUp(old(users), name, email, freshId, now)
      ensures FindByEmail(old(users), email).Some? <==> outcome == AlreadyExists
      ensures outcome.Created? ==> outcome.user == NewUser(name, email, freshId, now)
    {
      var existing := Find(users, HasEmail(email));
      if existing.Some? {
        return AlreadyExists;
      }
      var user := AuthUser(freshId, name, email, User, now);
      SignUpSpec(users, name, email, freshId, now, "");
      users := users + [user];
      outcome := Created(user);
    }
  }
}
