/**
 * The user use case (cmd/usecase/userUsecase.go): registration with the
 * duplicate-email check, and three finders that hand the repository's answer
 * back unchanged.
 */
module UserUseCase {
  import opened Wrappers
  import opened Failures
  import opened Entity
  import opened Dto
  import opened Pagination
  import opened UserRepository

  /**
   * The error registration ends with, if any. The email lookup's own error is
   * ignored: its empty response has email "", so a payload with an empty email
   * is always rejected, and a failed lookup lets the payload through to the
   * store, whose unique email column still refuses a duplicate.
   */
  function RegistrationError(repo: UserStore, payload: User, lookupFault: Fault, insertFault: Fault)
    : (err: Option<Error>)
    reads repo
    ensures payload.email == "" ==> err == Some(EmailTaken(""))
    ensures repo.HasEmail(payload.email) ==> err.Some?
    ensures lookupFault.None? && repo.HasEmail(payload.email) ==> err == Some(EmailTaken(payload.email))
    ensures err.None? <==> payload.email != "" && !repo.HasEmail(payload.email) && insertFault.None?
    ensures payload.email != "" && (lookupFault.Some? || !repo.HasEmail(payload.email)) && insertFault.Some? ==>
      err == FaultError(insertFault)
    ensures payload.email != "" && lookupFault.Some? && repo.HasEmail(payload.email) && insertFault.None? ==>
      err == Some(Failure(DuplicateEntry(payload.email)))
  {
    var existing := repo.FindByEmail(payload.email, lookupFault).value;
    if existing.email == payload.email then Some(EmailTaken(payload.email))
    else if insertFault.Some? then FaultError(insertFault)
    else if repo.HasEmail(payload.email) then Some(Failure(DuplicateEntry(payload.email)))
    else None
  }

  /**
   * Rejects the payload when the email lookup returns a user with the same
   * email, otherwise stamps `updatedAt` and creates the user.
   */
  method RegisterNewUser(repo: UserStore, payload: User, now: Time, lookupFault: Fault, insertFault: Fault)
    returns (r: UserWithProducts, err: Option<Error>)
    requires repo.Valid()
    modifies repo
    ensures repo.Valid()
    ensures err == old(RegistrationError(repo, payload, lookupFault, insertFault))
    ensures err.Some? ==> repo.rows == old(repo.rows) && repo.nextId == old(repo.nextId) && r == EmptyUser
    ensures err.None? ==>
      var stored := payload.(updatedAt := now, id := old(repo.nextId));
      && repo.rows == old(repo.rows) + [stored] && repo.nextId == old(repo.nextId) + 1
      && r == UserResponse(stored)
  {
    var userExist := repo.FindByEmail(payload.email, lookupFault).value;
    if userExist.email == payload.email {
      return EmptyUser, Some(EmailTaken(payload.email));
    }
    var stamped := payload.(updatedAt := now);
    var createdUser, createErr := repo.Create(stamped, insertFault);
    if createErr.Some? {
      return EmptyUser, createErr;
    }
    return createdUser, None;
  }

  /** The repository's page of users, unchanged. */
  method FindAllUsers(repo: UserStore, page: int, size: int, countFault: Fault, fetchFault: Fault)
    returns (users: Option<seq<UserWithProducts>>, paging: Paging, err: Option<Error>)
    requires size != 0
    ensures countFault.Some? ==>
      users.None? && paging == ZeroPaging && err == FaultError(countFault)
    ensures countFault.None? && fetchFault.Some? ==>
      users.None? && paging == ZeroPaging && err == FaultError(fetchFault)
    ensures countFault.None? && fetchFault.None? ==>
      && err.None?
      && users == Some(UserResponses(Window(repo.rows, Offset(page, size), size)))
      && paging == PagingOf(page, size, |repo.rows|)
  {
    users, paging, err := repo.FindAll(page, size, countFault, fetchFault);
  }

  function FindUserByEmail(repo: UserStore, email: string, fault: Fault): (r: Fallible<UserWithProducts>)
    reads repo
    ensures r == repo.FindByEmail(email, fault)
  {
    repo.FindByEmail(email, fault)
  }

  function FindUserByID(repo: UserStore, id: nat, fault: Fault): (r: Fallible<UserWithProducts>)
    reads repo
    ensures r == repo.FindByID(id, fault)
  {
    repo.FindByID(id, fault)
  }
}
