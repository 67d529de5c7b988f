/**
 * The profile handlers and their routes
 * (cmd/delivery/controllers/userController/userController.go).
 *
 * Unlike the product handlers, a page, size or identifier that does not parse
 * stops the process (`log.Fatal`): no response is written.
 */
module UserController {
  import opened Wrappers
  import opened Failures
  import opened Entity
  import opened Dto
  import opened Pagination
  import opened Strconv
  import opened Http
  import opened Middleware
  import opened UserRepository
  import UserUseCase

  /** Only users and admins may read profiles. */
  const ProfileRoles: seq<string> := ["user", "admin"]

  /**
   * The list handler's page and size: a missing key reads as "1" or "10"; a
   * value Atoi refuses (syntax or range) stops the process, given as `None`;
   * anything below 1 becomes 1 or 10.
   */
  function ListPaging(r: Request): (p: Option<(int, int)>)
    ensures p.None? <==> !Atoi(DefaultQuery(r, "page", "1")).Num? || !Atoi(DefaultQuery(r, "size", "10")).Num?
    ensures p.Some? ==> p.value.0 >= 1 && p.value.1 >= 1
    ensures p.Some? && Atoi(DefaultQuery(r, "page", "1")).value >= 1 ==> p.value.0 == Atoi(DefaultQuery(r, "page", "1")).value
    ensures p.Some? && Atoi(DefaultQuery(r, "size", "10")).value >= 1 ==> p.value.1 == Atoi(DefaultQuery(r, "size", "10")).value
    ensures p.Some? && Atoi(DefaultQuery(r, "page", "1")).value < 1 ==> p.value.0 == 1
    ensures p.Some? && Atoi(DefaultQuery(r, "size", "10")).value < 1 ==> p.value.1 == 10
  {
    var page := Atoi(DefaultQuery(r, "page", "1"));
    var size := Atoi(DefaultQuery(r, "size", "10"));
    if !page.Num? || !size.Num? then None
    else Some((if page.value < 1 then 1 else page.value, if size.value < 1 then 10 else size.value))
  }

  /** The routes `Route` registers under a group prefix. */
  function Routes(prefix: string): seq<Http.Route>
  {
    [ Http.Route(GET, prefix + GetUsersList, Some(ProfileRoles), ListProfiles),
      Http.Route(GET, prefix + GetUsers, Some(ProfileRoles), GetProfile) ]
  }

  class UserController {
    const users: UserStore
    const rg: RouterGroup

    constructor (users: UserStore, rg: RouterGroup)
      ensures this.users == users && this.rg == rg
    {
      this.users := users;
      this.rg := rg;
    }

    /** Lists one page of users; a store error is 500, and an empty page is still a 200. */
    method GetAllHandler(ctx: Context, countFault: Fault, fetchFault: Fault)
      modifies ctx
      ensures ListPaging(ctx.request).None? ==>
        && ctx.exited
        && ctx.status == old(ctx.status) && ctx.body == old(ctx.body) && ctx.aborted == old(ctx.aborted)
        && ctx.cookies == old(ctx.cookies) && ctx.keys == old(ctx.keys)
      ensures ListPaging(ctx.request).Some? && countFault.Some? ==>
        ctx.Responded(StatusInternalServerError, ErrorBody(countFault.value))
      ensures ListPaging(ctx.request).Some? && countFault.None? && fetchFault.Some? ==>
        ctx.Responded(StatusInternalServerError, ErrorBody(fetchFault.value))
      ensures ListPaging(ctx.request).Some? && countFault.None? && fetchFault.None? ==>
        var p := ListPaging(ctx.request).value;
        ctx.Responded(StatusOK, PagedBody("Ok", UserList(UserResponses(Window(users.rows, Offset(p.0, p.1), p.1))),
                                          PagingOf(p.0, p.1, |users.rows|)))
    {
      var parsedPage := Atoi(DefaultQuery(ctx.request, "page", "1"));
      if !parsedPage.Num? {
        assert ListPaging(ctx.request).None?;
        ctx.Fatal();
        return;
      }
      var parsedSize := Atoi(DefaultQuery(ctx.request, "size", "10"));
      if !parsedSize.Num? {
        assert ListPaging(ctx.request).None?;
        ctx.Fatal();
        return;
      }
      var page, size := parsedPage.value, parsedSize.value;
      if page < 1 {
        page := 1;
      }
      if size < 1 {
        size := 10;
      }
      assert ListPaging(ctx.request) == Some((page, size));
      SendPage(ctx, page, size, countFault, fetchFault);
    }

    /** The rest of GetAllHandler once page and size are read: fetch that page and answer. */
    method SendPage(ctx: Context, page: int, size: int, countFault: Fault, fetchFault: Fault)
      requires size >= 1
      modifies ctx
      ensures countFault.Some? ==> ctx.Responded(StatusInternalServerError, ErrorBody(countFault.value))
      ensures countFault.None? && fetchFault.Some? ==>
        ctx.Responded(StatusInternalServerError, ErrorBody(fetchFault.value))
      ensures countFault.None? && fetchFault.None? ==>
        ctx.Responded(StatusOK, PagedBody("Ok", UserList(UserResponses(Window(users.rows, Offset(page, size), size))),
                                          PagingOf(page, size, |users.rows|)))
    {
      var list, paging, err := UserUseCase.FindAllUsers(users, page, size, countFault, fetchFault);
      if err.Some? {
        ctx.SendError(StatusInternalServerError, Message(err.value));
        return;
      }
      ctx.SendPaged(UserList(list.value), paging, "Ok");
    }

    /** One user; every error of the lookup, a storage failure included, is 404. */
    method GetHandler(ctx: Context, fault: Fault)
      modifies ctx
      ensures var parsed := ParseUint64(Param(ctx.request, "id"));
        && (!parsed.Num? ==>
              && ctx.exited
              && ctx.status == old(ctx.status) && ctx.body == old(ctx.body) && ctx.aborted == old(ctx.aborted)
              && ctx.cookies == old(ctx.cookies) && ctx.keys == old(ctx.keys))
        && (parsed.Num? && fault.Some? ==> ctx.Responded(StatusNotFound, ErrorBody(fault.value)))
        && (parsed.Num? && fault.None? && (forall k :: 0 <= k < |users.rows| ==> users.rows[k].id != parsed.value) ==>
              ctx.Responded(StatusNotFound, ErrorBody("record not found")))
        && (parsed.Num? && fault.None? && (exists k :: 0 <= k < |users.rows| && users.rows[k].id == parsed.value) ==>
              ctx.status == StatusOK)
        && (parsed.Num? && ctx.status == StatusOK ==>
              exists k :: 0 <= k < |users.rows| && users.rows[k].id == parsed.value
                && ctx.Responded(StatusOK, SingleBody("Ok", UserData(UserResponse(users.rows[k])))))
    {
      var parsed := ParseUint64(Param(ctx.request, "id"));
      if !parsed.Num? {
        ctx.Fatal();
        return;
      }
      ParseUintAcceptsExactlyDecimals(Param(ctx.request, "id"));
      var id: nat := parsed.value;
      var res := UserUseCase.FindUserByID(users, id, fault);
      if res.err.Some? {
        ctx.SendError(StatusNotFound, Message(res.err.value));
        return;
      }
      ctx.SendSingle("Ok", UserData(res.value));
    }

    /** Registers the two profile routes behind the user/admin gate. */
    method Route()
      modifies rg
      ensures rg.routes == old(rg.routes) + Routes(rg.prefix)
    {
      rg.Handle(GET, GetUsersList, Some(ProfileRoles), ListProfiles);
      rg.Handle(GET, GetUsers, Some(ProfileRoles), GetProfile);
    }
  }

  // ---- Properties of the handlers and the route table ----

  /** Missing keys give page 1 and size 10; values below 1 are raised to the defaults. */
  lemma ListPagingDefaults(r: Request)
    requires "page" !in r.query && "size" !in r.query
    ensures ListPaging(r) == Some((1, 10))
  {
    ParseUintOfDecimal(1);
    ParseUintOfDecimal(10);
    assert Decimal(1) == "1";
    assert Decimal(10) == "10";
  }

  /**
   * Where the product list keeps a page of "-2", the profile list raises it
   * to 1; an empty size, which the product list reads as 10, stops the process.
   */
  lemma ListPagingClampsNegatives(r: Request)
    requires Query(r, "page") == "-2" && "size" !in r.query
    ensures ListPaging(r) == Some((1, 10))
  {
    AtoiOfDecimal(-2);
    assert Decimal(2) == "2";
    assert "-" + Decimal(2) == "-2";
    ParseUintOfDecimal(10);
    assert Decimal(10) == "10";
  }

  /** A size given but empty does not parse, so the handler stops the process. */
  lemma EmptySizeIsFatal(r: Request)
    requires "size" in r.query && r.query["size"] == ""
    ensures ListPaging(r).None?
  {
    EmptyParsesAsZero();
  }

  /** Both profile routes admit exactly the "user" and "admin" roles. */
  lemma CustomerAndResellerForbidden(prefix: string, route: Http.Route, authorization: string,
                                     cookie: Option<string>, parse: TokenParser)
    requires route in Routes(prefix)
    requires TokenOf(authorization, cookie).Some?
    requires parse(TokenOf(authorization, cookie).value).err.None?
    requires parse(TokenOf(authorization, cookie).value).value.role in {Some("customer"), Some("reseller")}
    ensures route.allowed == Some(ProfileRoles)
    ensures Decide(authorization, cookie, parse, ProfileRoles).verdict == Denied(StatusForbidden, "Invalid role")
  {
    ParsedTokenOutcomes(authorization, cookie, parse, ProfileRoles);
  }
}
