/**
 * `AuthRepositoryMemory`: sign-in against the users map, registration of a
 * new account, and the session. A sign-in never tells an unknown email from
 * a wrong password. Registration refuses an email already in use before it
 * looks at the password, so two accounts never share an email.
 */
module AuthRepository {
  import opened Wrappers
  import opened Errors
  import opened Time
  import opened Text
  import opened Store
  import opened Users
  import opened InMemory
  import Emails
  import Passwords

  /** `Omit<User, 'id' | 'createdAt' | 'updatedAt'>` as registration passes it (`RegisterDTO`). */
  datatype NewUser = NewUser(
    email: string,
    password: string,
    firstName: string,
    lastName: string,
    phone: string,
    companyName: string,
    address: string,
    bankName: Option<string>,
    iban: Option<string>,
    swift: Option<string>)

  function WithEmail(email: string): (p: User -> bool)
    ensures forall u :: p(u) <==> u.email == email
  {
    (u: User) => u.email == email
  }

  /**
   * What `login(email, password)` returns: the email's own error for a
   * malformed email; then the first stored user with the normalised email,
   * provided the password verifies against its hash; "Email ou mot de passe
   * incorrect" in both other cases.
   */
  function LoginResult(users: Table<User>, email: string, password: string): (r: Result<User, Error>)
    requires Store.Valid(users)
    ensures Emails.Create(email).Failure? ==> r == Failure(Emails.Create(email).error)
    ensures Emails.Create(email).Success? && r.Failure? ==> r.error == InvalidCredentials
    ensures r.Success? ==> r.value in Values(users) && r.value.email == Lower(Trim(email))
    ensures r.Success? ==> Passwords.Verify(password, r.value.password)
  {
    match Emails.Create(email)
    case Failure(e) => Failure(e)
    case Success(address) =>
      match Find(Values(users), WithEmail(address.value))
      case None => Failure(InvalidCredentials)
      case Some(u) => if Passwords.Verify(password, u.password) then Success(u) else Failure(InvalidCredentials)
  }

  /**
   * With emails unique, sign-in finds the one account holding the normalised
   * email, and succeeds exactly when the password matches its hash.
   */
  lemma LoginFindsTheAccount(users: Table<User>, email: string, password: string, k: string)
    requires Store.Valid(users) && UniqueEmails(users)
    requires Emails.Create(email).Success?
    requires k in users.rows && users.rows[k].email == Emails.Create(email).value.value
    ensures LoginResult(users, email, password) ==
      if Passwords.Verify(password, users.rows[k].password) then Success(users.rows[k]) else Failure(InvalidCredentials)
  {
    var vs := Values(users);
    var p := WithEmail(users.rows[k].email);
    InValues(users, users.rows[k]);
    var found := Find(vs, p);
    assert found.Some?;
    InValues(users, found.value);
    var k' :| k' in users.rows && users.rows[k'] == found.value;
    assert k' == k;
  }

  /** An email no account holds fails exactly like a wrong password. */
  lemma LoginUnknownEmail(users: Table<User>, email: string, password: string)
    requires Store.Valid(users)
    requires Emails.Create(email).Success?
    requires forall k :: k in users.rows ==> users.rows[k].email != Emails.Create(email).value.value
    ensures LoginResult(users, email, password) == Failure(InvalidCredentials)
  {
    var address := Emails.Create(email).value.value;
    var found := Find(Values(users), WithEmail(address));
    if found.Some? {
      InValues(users, found.value);
    }
  }

  /** The seed's email is accepted as it is. */
  lemma SeedEmailAccepted()
    ensures Emails.Create("test@factureo.com") == Success(Emails.Email("test@factureo.com"))
  {
    SeedEmailTrimmed();
    SeedEmailMatches();
    SeedEmailLower();
  }

  lemma SeedEmailTrimmed()
    ensures Trim("test@factureo.com") == "test@factureo.com"
  {
    var t := "test@factureo.com";
    assert t[0] == 't' && t[|t| - 1] == 'm';
    TrimUnpadded(t);
  }

  /** A one-input helper of `SeedEmailAccepted`: the seeded address has the shape of an email. */
  lemma SeedEmailMatches()
    ensures Emails.MatchesPattern("test@factureo.com")
  {
    var t := "test@factureo.com";
    assert t[..4] == "test" && t[5..13] == "factureo" && t[14..] == "com";
    assert Emails.MatchesAt(t, 4, 13);
  }

  lemma SeedEmailLower()
    ensures Lower("test@factureo.com") == "test@factureo.com"
  {
    var t := "test@factureo.com";
    forall i | 0 <= i < |t| ensures Lower(t)[i] == t[i] {
      assert !IsUpper(t[i]);
    }
  }

  /** The seeded account signs in with its own credentials. */
  lemma SeedLogin()
    ensures Store.Valid(SeedUserTable())
    ensures LoginResult(SeedUserTable(), "test@factureo.com", "Test1234!") == Success(SeedUser())
  {
    SeedUsersValid();
    SeedEmailAccepted();
    SeedPasswordVerifies();
    assert Find([SeedUser()], WithEmail("test@factureo.com")) == Some(SeedUser());
  }

  lemma SeedPasswordVerifies()
    ensures Passwords.Verify("Test1234!", SeedUser().password)
  {
    assert Passwords.HashPrefix + "Test1234!" == "hashed_Test1234!";
  }

  /** `emailExists(email)`: some stored user has `email.toLowerCase()`. */
  predicate EmailExists(users: Table<User>, email: string)
    requires Store.Valid(users)
  {
    exists u :: u in Values(users) && u.email == Lower(email)
  }

  /** The same, read on the keys. */
  lemma EmailExistsIff(users: Table<User>, email: string)
    requires Store.Valid(users)
    ensures EmailExists(users, email) <==> exists k :: k in users.rows && users.rows[k].email == Lower(email)
  {
    if EmailExists(users, email) {
      var u :| u in Values(users) && u.email == Lower(email);
      InValues(users, u);
    }
    if exists k :: k in users.rows && users.rows[k].email == Lower(email) {
      var k :| k in users.rows && users.rows[k].email == Lower(email);
      InValues(users, users.rows[k]);
    }
  }

  /** The account `register` stores: the data with the normalised email and the hashed password. */
  function NewAccount(data: NewUser, email: string, password: Passwords.Password, id: string, now: Date): (u: User)
    ensures u.id == id && u.email == email && u.password == Passwords.Hash(password)
    ensures u.firstName == data.firstName && u.lastName == data.lastName && u.phone == data.phone
    ensures u.companyName == data.companyName && u.address == data.address
    ensures u.bankName == data.bankName && u.iban == data.iban && u.swift == data.swift
    ensures u.createdAt == now && u.updatedAt == now
  {
    User(id, email, Passwords.Hash(password), data.firstName, data.lastName, data.phone, data.companyName,
      data.address, data.bankName, data.iban, data.swift, now, now)
  }

  /**
   * What `register(userData)` returns: the email's error, then "Cet email est
   * déjà utilisé", then the password's error, otherwise the new account.
   */
  function RegisterResult(users: Table<User>, data: NewUser, id: string, now: Date): (r: Result<User, Error>)
    requires Store.Valid(users)
    ensures Emails.Create(data.email).Failure? ==> r == Failure(Emails.Create(data.email).error)
    ensures Emails.Create(data.email).Success? && EmailExists(users, Emails.Create(data.email).value.value) ==>
      r == Failure(EmailTaken)
    ensures (&& Emails.Create(data.email).Success?
             && !EmailExists(users, Emails.Create(data.email).value.value)
             && Passwords.Create(data.password).Failure?) ==> r == Failure(Passwords.Create(data.password).error)
    ensures r.Success? ==> Passwords.Strong(data.password)
    ensures r.Success? ==> r.value.id == id && r.value.email == Lower(Trim(data.email))
    ensures r.Success? ==> r.value.password == Passwords.HashPrefix + data.password
    ensures r.Success? ==> r.value.bankName == data.bankName && r.value.iban == data.iban && r.value.swift == data.swift
    ensures r.Success? ==> r.value.createdAt == now && r.value.updatedAt == now
  {
    match Emails.Create(data.email)
    case Failure(e) => Failure(e)
    case Success(address) =>
      if EmailExists(users, address.value) then Failure(EmailTaken)
      else match Passwords.Create(data.password)
        case Failure(e) => Failure(e)
        case Success(p) => Success(NewAccount(data, address.value, p, id, now))
  }

  /** A registered account's email is held by no account stored before it. */
  lemma RegisterEmailIsNew(users: Table<User>, data: NewUser, id: string, now: Date)
    requires Store.Valid(users)
    requires RegisterResult(users, data, id, now).Success?
    ensures forall k :: k in users.rows ==> users.rows[k].email != RegisterResult(users, data, id, now).value.email
  {
    var address := Emails.Create(data.email).value;
    EmailExistsIff(users, address.value);
    assert Lower(address.value) == address.value;
  }

  /** Registering an email that differs from a stored one only by case or spaces is refused. */
  lemma RegisterTwiceRefused(users: Table<User>, data: NewUser, id: string, now: Date, k: string)
    requires Store.Valid(users) && k in users.rows
    requires Emails.Create(data.email).Success?
    requires users.rows[k].email == Lower(Trim(data.email))
    ensures RegisterResult(users, data, id, now) == Failure(EmailTaken)
  {
    var address := Emails.Create(data.email).value;
    assert Lower(address.value) == address.value;
    EmailExistsIff(users, address.value);
  }

  /** `getCurrentUser()`: no session (or an empty id) gives `null`, otherwise the stored user or `null`. */
  function CurrentUser(users: Table<User>, session: Option<string>): (r: Option<User>)
    ensures session.None? || session == Some("") ==> r.None?
    ensures r.Some? ==> session.value in users.rows && r.value == users.rows[session.value]
    ensures session.Some? && session.value != "" && session.value in users.rows ==> r.Some?
  {
    if session.None? || session.value == "" then None else Get(users, session.value)
  }

  class AuthRepositoryMemory {
    const db: InMemoryDB

    constructor(db: InMemoryDB)
      ensures this.db == db
    {
      this.db := db;
    }

    /** `login(email, password)`: opens the session only on success. */
    method Login(email: string, password: string) returns (r: Result<User, Error>)
      requires db.Valid()
      modifies db`currentUserId
      ensures db.Valid()
      ensures r == LoginResult(db.users, email, password)
      ensures r.Success? ==> db.currentUserId == Some(r.value.id)
      ensures r.Failure? ==> db.currentUserId == old(db.currentUserId)
    {
      var address := Emails.Create(email);
      if address.Failure? {
        return Failure(address.error);
      }
      var user := Find(Values(db.users), WithEmail(address.value.value));
      if user.None? {
        return Failure(InvalidCredentials);
      }
      if !Passwords.Verify(password, user.value.password) {
        return Failure(InvalidCredentials);
      }
      db.SetCurrentUser(Some(user.value.id));
      r := Success(user.value);
    }

    /** `register(userData)`, with the clock and the generated id passed in; signs the new account in. */
    method Register(data: NewUser, id: string, now: Date) returns (r: Result<User, Error>)
      requires db.Valid() && id !in db.users.rows
      modifies db`users, db`currentUserId
      ensures db.Valid()
      ensures r == RegisterResult(old(db.users), data, id, now)
      ensures r.Failure? ==> db.users == old(db.users) && db.currentUserId == old(db.currentUserId)
      ensures r.Success? ==> db.users == Put(old(db.users), id, r.value) && db.currentUserId == Some(id)
    {
      var address := Emails.Create(data.email);
      if address.Failure? {
        return Failure(address.error);
      }
      if EmailExists(db.users, address.value.value) {
        return Failure(EmailTaken);
      }
      var password := Passwords.Create(data.password);
      if password.Failure? {
        return Failure(password.error);
      }
      var u := NewAccount(data, address.value.value, password.value, id, now);
      assert RegisterResult(db.users, data, id, now) == Success(u);
      RegisterEmailIsNew(db.users, data, id, now);
      AddAccount(u);
      r := Success(u);
    }

    /** The writes of a successful `register`: `set` the new account, then open its session. */
    method AddAccount(u: User)
      requires db.Valid() && u.id !in db.users.rows
      requires forall k :: k in db.users.rows ==> db.users.rows[k].email != u.email
      modifies db`users, db`currentUserId
      ensures db.Valid()
      ensures db.users == Put(old(db.users), u.id, u) && db.currentUserId == Some(u.id)
    {
      PutNewUserConsistent(db.users, db.clients, db.factures, u);
      db.users := Put(db.users, u.id, u);
      db.SetCurrentUser(Some(u.id));
    }

    /** `logout()`. */
    method Logout()
      requires db.Valid()
      modifies db`currentUserId
      ensures db.Valid() && db.currentUserId == None
    {
      db.SetCurrentUser(None);
    }
  }
}
