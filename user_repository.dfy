/**
 * The user repository (cmd/repository/userRepository.go) over an in-memory
 * table.
 *
 * As for products, the table holds the visible users in insertion order under
 * increasing identifiers. The schema declares the email column unique, so the
 * store refuses a second row with the same email.
 */
module UserRepository {
  import opened Wrappers
  import opened Failures
  import opened Entity
  import opened Dto
  import opened Pagination
  import Table

  function UserId(u: User): int
  {
    u.id
  }

  function UserEmail(u: User): string
  {
    u.email
  }

  /** Identifiers increase along the table, as auto-increment assigns them. */
  predicate IdsIncreasing(rows: seq<User>)
  {
    Table.Increasing(rows, UserId)
  }

  /** The unique email column. */
  predicate EmailsUnique(rows: seq<User>)
  {
    Table.Distinct(rows, UserEmail)
  }

  /** The responses for a list of users, one per user, in the same order. */
  function UserResponses(us: seq<User>): seq<UserWithProducts>
  {
    seq(|us|, i requires 0 <= i < |us| => UserResponse(us[i]))
  }

  function IndexOfId(rows: seq<User>, id: nat): Option<nat>
  {
    Table.IndexOf(rows, UserId, id)
  }

  function IndexOfEmail(rows: seq<User>, email: string): Option<nat>
  {
    Table.IndexOf(rows, UserEmail, email)
  }

  /** The MySQL driver's error text for a second row with the same email. */
  function DuplicateEntry(email: string): string
  {
    "Error 1062 (23000): Duplicate entry '" + email + "' for key 'users.email'"
  }

  class UserStore {
    var rows: seq<User>
    var nextId: nat

    ghost predicate Valid()
      reads this
    {
      && IdsIncreasing(rows)
      && EmailsUnique(rows)
      && (forall k :: 0 <= k < |rows| ==> 1 <= rows[k].id < nextId)
      && nextId >= 1
    }

    constructor ()
      ensures Valid() && rows == []
    {
      rows, nextId := [], 1;
    }

    /** Whether some stored user has this email. */
    predicate HasEmail(email: string)
      reads this
    {
      exists k :: 0 <= k < |rows| && rows[k].email == email
    }

    /**
     * One page of users, with the paging descriptor. A failing count returns
     * before anything is fetched; either failure gives no list and the zero
     * descriptor.
     */
    method FindAll(page: int, size: int, countFault: Fault, fetchFault: Fault)
      returns (users: Option<seq<UserWithProducts>>, paging: Paging, err: Option<Error>)
      requires size != 0
      ensures countFault.Some? ==>
        users.None? && paging == ZeroPaging && err == FaultError(countFault)
      ensures countFault.None? && fetchFault.Some? ==>
        users.None? && paging == ZeroPaging && err == FaultError(fetchFault)
      ensures countFault.None? && fetchFault.None? ==>
        && err.None?
        && users == Some(UserResponses(Window(rows, Offset(page, size), size)))
        && paging == PagingOf(page, size, |rows|)
    {
      var offset := Offset(page, size);
      if countFault.Some? {
        return None, ZeroPaging, FaultError(countFault);
      }
      var total := |rows|;
      if fetchFault.Some? {
        return None, ZeroPaging, FaultError(fetchFault);
      }
      var fetched := Window(rows, offset, size);
      var out := new UserWithProducts[|fetched|];
      for i := 0 to |fetched|
        invariant forall k :: 0 <= k < i ==> out[k] == UserResponse(fetched[k])
      {
        out[i] := ConvertUserToResponse(fetched[i]);
      }
      assert out[..] == UserResponses(fetched);
      users := Some(out[..]);
      paging := Paging(page, size, total, TotalPages(total, size));
      err := None;
    }

    /** Stores the payload under the next identifier and returns its response. */
    method Create(payload: User, fault: Fault) returns (r: UserWithProducts, err: Option<Error>)
      requires Valid()
      modifies this
      ensures Valid()
      ensures fault.Some? ==>
        rows == old(rows) && nextId == old(nextId) && r == EmptyUser && err == FaultError(fault)
      ensures fault.None? && old(HasEmail(payload.email)) ==>
        && rows == old(rows) && nextId == old(nextId) && r == EmptyUser
        && err == Some(Failure(DuplicateEntry(payload.email)))
      ensures fault.None? && !old(HasEmail(payload.email)) ==>
        && rows == old(rows) + [payload.(id := old(nextId))]
        && nextId == old(nextId) + 1
        && r == UserResponse(payload.(id := old(nextId))) && err.None?
    {
      if fault.Some? {
        return EmptyUser, FaultError(fault);
      }
      if IndexOfEmail(rows, payload.email).Some? {
        return EmptyUser, Some(Failure(DuplicateEntry(payload.email)));
      }
      var stored := payload.(id := nextId);
      rows := rows + [stored];
      nextId := nextId + 1;
      r := ConvertUserToResponse(stored);
      err := None;
    }

    /** The user with this identifier and its products, or the not-found error. */
    function FindByID(id: nat, fault: Fault): (r: Fallible<UserWithProducts>)
      reads this
      ensures fault.Some? ==> r == Fallible(EmptyUser, FaultError(fault))
      ensures fault.None? && (forall k :: 0 <= k < |rows| ==> rows[k].id != id) ==>
        r == Fallible(EmptyUser, Some(RecordNotFound))
      ensures fault.None? && r.err.None? ==>
        exists k :: 0 <= k < |rows| && rows[k].id == id && r.value == UserResponse(rows[k])
      ensures fault.None? && (exists k :: 0 <= k < |rows| && rows[k].id == id) ==> r.err.None?
    {
      if fault.Some? then Fallible(EmptyUser, FaultError(fault))
      else match IndexOfId(rows, id)
        case None => Fallible(EmptyUser, Some(RecordNotFound))
        case Some(k) => Fallible(UserResponse(rows[k]), None)
    }

    /**
     * The user with this email, read without its products; with no such user,
     * the not-found error and the empty response, whose email is "".
     */
    function FindByEmail(email: string, fault: Fault): (r: Fallible<UserWithProducts>)
      reads this
      ensures fault.Some? ==> r == Fallible(EmptyUser, FaultError(fault))
      ensures fault.None? && !HasEmail(email) ==> r == Fallible(EmptyUser, Some(RecordNotFound))
      ensures fault.None? && HasEmail(email) ==>
        && r.err.None? && r.value.email == email
        && exists k :: 0 <= k < |rows| && rows[k].email == email
                       && r.value == UserResponse(rows[k].(products := []))
    {
      if fault.Some? then Fallible(EmptyUser, FaultError(fault))
      else match IndexOfEmail(rows, email)
        case None => Fallible(EmptyUser, Some(RecordNotFound))
        case Some(k) => Fallible(UserResponse(rows[k].(products := [])), None)
    }
  }

  /** Under unique emails, the user an email lookup finds is the only one with that email. */
  lemma EmailLookupIsUnique(rows: seq<User>, email: string, k: nat)
    requires EmailsUnique(rows) && k < |rows| && rows[k].email == email
    ensures IndexOfEmail(rows, email) == Some(k)
  {
    Table.DistinctKeyIsFound(rows, UserEmail, email, k);
  }
}
