/**
 * The parts of the web framework the handlers touch: the request (headers,
 * cookies, query string and path parameters), the response the handler writes
 * into the context, the context's key/value store, and a router group that
 * records which handler, behind which role gate, serves which route.
 *
 * The response writers stand for the shared helpers of the source
 * (error, success, single, paged and created responses); an error response
 * also stops the handler chain.
 */
module Http {
  import opened Wrappers
  import opened Entity
  import opened Dto
  import opened Pagination

  const StatusOK := 200
  const StatusCreated := 201
  const StatusBadRequest := 400
  const StatusUnauthorized := 401
  const StatusForbidden := 403
  const StatusNotFound := 404
  const StatusInternalServerError := 500

  datatype Request = Request(
    headers: map<string, string>,
    cookies: map<string, string>,
    query: map<string, string>,
    params: map<string, string>)

  /** A bound header field: "" when the header is absent. */
  function Header(r: Request, name: string): string
  {
    if name in r.headers then r.headers[name] else ""
  }

  /** `ctx.Cookie(name)`: no value (an error) when the request has no such cookie. */
  function CookieValue(r: Request, name: string): Option<string>
  {
    if name in r.cookies then Some(r.cookies[name]) else None
  }

  /** `ctx.Query(key)`: "" when the key is absent. */
  function Query(r: Request, key: string): string
  {
    if key in r.query then r.query[key] else ""
  }

  /** `ctx.DefaultQuery(key, d)`: d only when the key is absent, even if its value is "". */
  function DefaultQuery(r: Request, key: string, d: string): string
  {
    if key in r.query then r.query[key] else d
  }

  /** `ctx.Param(key)`: the path parameter. */
  function Param(r: Request, key: string): string
  {
    if key in r.params then r.params[key] else ""
  }

  /** `ctx.ShouldBindJSON`: the decoded body, or the decoder's error message. */
  datatype Binding<T> = Malformed(message: string) | Decoded(value: T)

  /** A `Set-Cookie` the handler adds to the response. */
  datatype Cookie = Cookie(
    name: string, value: string, maxAge: int, path: string, domain: string, secure: bool, httpOnly: bool)

  /** What a response carries as its `data`. */
  datatype Data =
    | ProductData(product: ProductWithUsers)
    | ProductList(products: seq<ProductWithUsers>)
    | UserData(user: UserWithProducts)
    | UserList(users: seq<UserWithProducts>)
    | Registered(id: nat, username: string, email: string, role: string,
                 createdAt: Time, updatedAt: Time, deletedAt: Option<Time>)

  datatype Body =
    | NoBody
    | ErrorBody(message: string)
    | SuccessBody(message: string)
    | SingleBody(message: string, data: Data)
    | PagedBody(message: string, data: Data, paging: Paging)
    | CreatedBody(message: string, data: Data)

  /** The request context of one call. `exited` records that the process was stopped by `log.Fatal`. */
  class Context {
    const request: Request
    var status: int
    var body: Body
    var cookies: seq<Cookie>
    var keys: map<string, Option<int>>
    var aborted: bool
    var exited: bool

    constructor (request: Request)
      ensures this.request == request
      ensures status == 0 && body == NoBody && cookies == [] && keys == map[]
      ensures !aborted && !exited
    {
      this.request := request;
      status, body, cookies, keys := 0, NoBody, [], map[];
      aborted, exited := false, false;
    }

    /** A response has been written with this status and body. */
    ghost predicate Replied(code: int, b: Body)
      reads this
    {
      status == code && body == b
    }

    /**
     * Between the old and the new state the handler wrote exactly this response
     * and nothing else; an error response also stopped the chain.
     */
    twostate predicate Responded(code: int, new b: Body)
      reads this
    {
      && status == code && body == b
      && aborted == (b.ErrorBody? || old(aborted))
      && cookies == old(cookies) && keys == old(keys) && exited == old(exited)
    }

    method SendError(code: int, message: string)
      modifies this
      ensures status == code && body == ErrorBody(message) && aborted
      ensures cookies == old(cookies) && keys == old(keys) && exited == old(exited)
    {
      status, body, aborted := code, ErrorBody(message), true;
    }

    method SendSuccess(message: string)
      modifies this
      ensures status == StatusOK && body == SuccessBody(message)
      ensures cookies == old(cookies) && keys == old(keys) && aborted == old(aborted) && exited == old(exited)
    {
      status, body := StatusOK, SuccessBody(message);
    }

    method SendSingle(message: string, data: Data)
      modifies this
      ensures status == StatusOK && body == SingleBody(message, data)
      ensures cookies == old(cookies) && keys == old(keys) && aborted == old(aborted) && exited == old(exited)
    {
      status, body := StatusOK, SingleBody(message, data);
    }

    method SendPaged(data: Data, paging: Paging, message: string)
      modifies this
      ensures status == StatusOK && body == PagedBody(message, data, paging)
      ensures cookies == old(cookies) && keys == old(keys) && aborted == old(aborted) && exited == old(exited)
    {
      status, body := StatusOK, PagedBody(message, data, paging);
    }

    method SendCreate(message: string, data: Data)
      modifies this
      ensures status == StatusCreated && body == CreatedBody(message, data)
      ensures cookies == old(cookies) && keys == old(keys) && aborted == old(aborted) && exited == old(exited)
    {
      status, body := StatusCreated, CreatedBody(message, data);
    }

    method SetCookie(c: Cookie)
      modifies this
      ensures cookies == old(cookies) + [c]
      ensures status == old(status) && body == old(body) && keys == old(keys)
      ensures aborted == old(aborted) && exited == old(exited)
    {
      cookies := cookies + [c];
    }

    method Set(key: string, value: Option<int>)
      modifies this
      ensures keys == old(keys)[key := value]
      ensures status == old(status) && body == old(body) && cookies == old(cookies)
      ensures aborted == old(aborted) && exited == old(exited)
    {
      keys := keys[key := value];
    }

    /** `log.Fatal`: the process stops; nothing more is written. */
    method Fatal()
      modifies this
      ensures exited
      ensures status == old(status) && body == old(body) && cookies == old(cookies)
      ensures keys == old(keys) && aborted == old(aborted)
    {
      exited := true;
    }
  }

  datatype Verb = GET | POST | PUT | DELETE

  /** The handlers of the three controllers. */
  datatype Endpoint =
    | Login | Register | Logout
    | ListProfiles | GetProfile
    | ListProducts | GetProduct | ProductsByStock | CreateProduct | UpdateProduct | DeleteProduct

  /** A registered route; `allowed` is the role list of its gate, `None` when it has none. */
  datatype Route = Route(verb: Verb, path: string, allowed: Option<seq<string>>, endpoint: Endpoint)

  class RouterGroup {
    const prefix: string
    var routes: seq<Route>

    constructor (prefix: string)
      ensures this.prefix == prefix && routes == []
    {
      this.prefix := prefix;
      routes := [];
    }

    method Handle(verb: Verb, path: string, allowed: Option<seq<string>>, endpoint: Endpoint)
      modifies this
      ensures routes == old(routes) + [Route(verb, prefix + path, allowed, endpoint)]
    {
      routes := routes + [Route(verb, prefix + path, allowed, endpoint)];
    }
  }
}
