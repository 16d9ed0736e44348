/**
 * `LoginUseCase` and `RegisterUseCase`: each hands the call to the auth
 * repository and, in its `catch`, rethrows an `Error` object as it is and
 * replaces any other thrown value by its own message. The repository only
 * ever throws `Error` objects, so both use cases report exactly the
 * repository's outcome.
 */
module AuthUseCases {
  import opened Wrappers
  import opened Errors
  import opened Time
  import opened Store
  import opened Users
  import opened InMemory
  import AuthRepository

  /** The `catch` block applied to a failed call; a success passes through. */
  function Caught(r: Result<User, Error>, fallback: Error): (s: Result<User, Error>)
    ensures s.Success? <==> r.Success?
    ensures r.Success? ==> s == r
    ensures r.Failure? ==> s.error == Rethrow(ErrorObject(r.error), fallback)
  {
    match r
    case Success(u) => Success(u)
    case Failure(e) => Failure(Rethrow(ErrorObject(e), fallback))
  }

  /** The repository's errors are `Error` objects, so the catch hands back the same result. */
  lemma CaughtIsTransparent(r: Result<User, Error>, fallback: Error)
    ensures Caught(r, fallback) == r
  {
  }

  /** "Erreur lors de la connexion" only ever stands for a thrown value that is not an `Error`. */
  lemma LoginFallbackOnlyForOtherValues(t: Thrown)
    ensures Rethrow(t, LoginFailed) == LoginFailed <==> t.OtherValue? || t.error == LoginFailed
  {
  }

  class LoginUseCase {
    const authRepository: AuthRepository.AuthRepositoryMemory

    constructor(authRepository: AuthRepository.AuthRepositoryMemory)
      ensures this.authRepository == authRepository
    {
      this.authRepository := authRepository;
    }

    /** `execute(email, password)`. */
    method Execute(email: string, password: string) returns (r: Result<User, Error>)
      requires authRepository.db.Valid()
      modifies authRepository.db`currentUserId
      ensures authRepository.db.Valid()
      ensures r == AuthRepository.LoginResult(authRepository.db.users, email, password)
      ensures r.Success? ==> authRepository.db.currentUserId == Some(r.value.id)
      ensures r.Failure? ==> authRepository.db.currentUserId == old(authRepository.db.currentUserId)
    {
      var result := authRepository.Login(email, password);
      r := Caught(result, LoginFailed);
      CaughtIsTransparent(result, LoginFailed);
    }
  }

  class RegisterUseCase {
    const authRepository: AuthRepository.AuthRepositoryMemory

    constructor(authRepository: AuthRepository.AuthRepositoryMemory)
      ensures this.authRepository == authRepository
    {
      this.authRepository := authRepository;
    }

    /** `execute(data)`, with the clock and the generated id passed in. */
    method Execute(data: AuthRepository.NewUser, id: string, now: Date) returns (r: Result<User, Error>)
      requires authRepository.db.Valid() && id !in authRepository.db.users.rows
      modifies authRepository.db`users, authRepository.db`currentUserId
      ensures authRepository.db.Valid()
      ensures r == AuthRepository.RegisterResult(old(authRepository.db.users), data, id, now)
      ensures r.Failure? ==> authRepository.db.users == old(authRepository.db.users)
      ensures r.Success? ==> authRepository.db.users == Put(old(authRepository.db.users), id, r.value)
      ensures r.Success? ==> authRepository.db.currentUserId == Some(id)
      ensures r.Failure? ==> authRepository.db.currentUserId == old(authRepository.db.currentUserId)
    {
      var result := authRepository.Register(data, id, now);
      r := Caught(result, RegisterFailed);
      CaughtIsTransparent(result, RegisterFailed);
    }
  }
}
