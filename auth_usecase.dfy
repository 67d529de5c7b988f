/**
 * The authentication use case (cmd/usecase/authUsecase.go).
 *
 * Password hashing, hash checking and token creation are not part of this
 * model; they are passed in as functions.
 */
module AuthUseCase {
  import opened Wrappers
  import opened Failures
  import opened Entity
  import opened Dto
  import opened UserRepository
  import UserUseCase

  datatype Crypto = Crypto(
    hashPassword: string -> Fallible<string>,
    checkPasswordHash: (string, string) -> bool,
    createToken: UserWithProducts -> Fallible<AuthResponseDto>)

  /** The user Register builds: the hashed password, no confirmation, zero id and timestamps. */
  function NewUser(payload: AuthRequestRegisterDto, hashed: string): (u: User)
    ensures u.password == hashed
    ensures u.firstName == payload.firstName && u.lastName == payload.lastName
    ensures u.email == payload.email && u.role == payload.role
    ensures u.id == 0 && u.products == []
  {
    User(0, 0, 0, None, payload.firstName, payload.lastName, payload.email, hashed, payload.role, [])
  }

  function FindUserByEmail(repo: UserStore, email: string, fault: Fault): (r: Fallible<UserWithProducts>)
    reads repo
    ensures r == repo.FindByEmail(email, fault)
  {
    UserUseCase.FindUserByEmail(repo, email, fault)
  }

  /**
   * Looks the user up and checks the password; a wrong password gives the empty
   * token and no error. A token is only ever returned for a stored user with
   * that email whose stored hash accepts the password.
   */
  function Login(repo: UserStore, crypto: Crypto, payload: AuthRequestLoginDto, lookupFault: Fault)
    : (r: Fallible<AuthResponseDto>)
    reads repo
    ensures var found := repo.FindByEmail(payload.email, lookupFault);
      found.err.Some? ==> r == Fallible(EmptyToken, found.err)
    ensures var found := repo.FindByEmail(payload.email, lookupFault);
      found.err.None? && !crypto.checkPasswordHash(payload.password, found.value.password) ==>
        r == Fallible(EmptyToken, None)
    ensures var found := repo.FindByEmail(payload.email, lookupFault);
      var token := crypto.createToken(found.value);
      found.err.None? && crypto.checkPasswordHash(payload.password, found.value.password) ==>
        r == (if token.err.Some? then Fallible(EmptyToken, token.err) else token)
    ensures r.err.Some? ==> r.value == EmptyToken
    ensures r.err.None? && r.value != EmptyToken ==>
      exists k :: 0 <= k < |repo.rows| && repo.rows[k].email == payload.email
        && crypto.checkPasswordHash(payload.password, repo.rows[k].password)
        && r == crypto.createToken(UserResponse(repo.rows[k].(products := [])))
  {
    var user := FindUserByEmail(repo, payload.email, lookupFault);
    if user.err.Some? || !crypto.checkPasswordHash(payload.password, user.value.password) then
      Fallible(EmptyToken, user.err)
    else
      var token := crypto.createToken(user.value);
      if token.err.Some? then Fallible(EmptyToken, token.err) else token
  }

  /** The error Register ends with, if any: the hashing error first, then the registration's. */
  function RegisterError(repo: UserStore, crypto: Crypto, payload: AuthRequestRegisterDto,
                         lookupFault: Fault, insertFault: Fault): (err: Option<Error>)
    reads repo
    ensures crypto.hashPassword(payload.password).err.Some? ==> err == crypto.hashPassword(payload.password).err
    ensures payload.email == "" || repo.HasEmail(payload.email) ==> err.Some?
    ensures err.None? <==>
      && crypto.hashPassword(payload.password).err.None?
      && payload.email != "" && !repo.HasEmail(payload.email) && insertFault.None?
    ensures crypto.hashPassword(payload.password).err.None? ==>
      err == UserUseCase.RegistrationError(repo, NewUser(payload, crypto.hashPassword(payload.password).value),
                                           lookupFault, insertFault)
  {
    var hashed := crypto.hashPassword(payload.password);
    if hashed.err.Some? then hashed.err
    else UserUseCase.RegistrationError(repo, NewUser(payload, hashed.value), lookupFault, insertFault)
  }

  /**
   * Hashes the password and registers the resulting user. A hashing error is
   * returned before the user use case is reached; the plaintext is never stored.
   */
  method Register(repo: UserStore, crypto: Crypto, payload: AuthRequestRegisterDto, now: Time,
                  lookupFault: Fault, insertFault: Fault)
    returns (r: UserWithProducts, err: Option<Error>)
    requires repo.Valid()
    modifies repo
    ensures repo.Valid()
    ensures crypto.hashPassword(payload.password).err.Some? ==>
      repo.rows == old(repo.rows) && r == EmptyUser && err == crypto.hashPassword(payload.password).err
    ensures err == old(RegisterError(repo, crypto, payload, lookupFault, insertFault))
    ensures err.Some? ==> repo.rows == old(repo.rows) && repo.nextId == old(repo.nextId) && r == EmptyUser
    ensures err.None? ==>
      && crypto.hashPassword(payload.password).err.None?
      && var stored := NewUser(payload, crypto.hashPassword(payload.password).value)
                         .(updatedAt := now, id := old(repo.nextId));
      && repo.rows == old(repo.rows) + [stored]
      && repo.nextId == old(repo.nextId) + 1
      && r == UserResponse(stored)
  {
    var hashed := crypto.hashPassword(payload.password);
    if hashed.err.Some? {
      return EmptyUser, hashed.err;
    }
    r, err := UserUseCase.RegisterNewUser(repo, NewUser(payload, hashed.value), now, lookupFault, insertFault);
  }
}
