/**
 * The role gate put in front of the product and profile routes
 * (cmd/delivery/middlewares/auth.go).
 *
 * The token comes from the `Authorization` header with one leading "Bearer "
 * removed, or, when that leaves nothing, from the `token` cookie. The token
 * service's parser is passed in as a function: it either fails or yields the
 * token's claims, of which the gate reads the user id and the role.
 */
module Middleware {
  import opened Wrappers
  import opened Failures
  import opened Http

  datatype Claims = Claims(userId: Option<int>, role: Option<string>)

  type TokenParser = string -> Fallible<Claims>

  const UserKey := "user"
  const BearerPrefix := "Bearer "

  function TrimPrefix(s: string, prefix: string): string
  {
    if prefix <= s then s[|prefix|..] else s
  }

  datatype Verdict = Allowed | Denied(code: int, message: string)

  /**
   * The outcome of the gate for one request: its verdict, the token handed to
   * the parser (`None` when the parser is not called), and the value stored
   * under the `user` key (`None` when nothing is stored; `Some(None)` is a nil
   * user id).
   */
  datatype Gate = Gate(verdict: Verdict, parsedToken: Option<string>, user: Option<Option<int>>)

  /** The token the gate looks for: the stripped header if non-empty, else a non-empty cookie. */
  function TokenOf(authorization: string, cookie: Option<string>): (r: Option<string>)
    ensures r.Some? ==> r.value != ""
    ensures r.None? <==> TrimPrefix(authorization, BearerPrefix) == "" && (cookie.None? || cookie == Some(""))
    ensures TrimPrefix(authorization, BearerPrefix) != "" ==> r == Some(TrimPrefix(authorization, BearerPrefix))
    ensures TrimPrefix(authorization, BearerPrefix) == "" && cookie.Some? && cookie.value != "" ==> r == cookie
  {
    var stripped := TrimPrefix(authorization, BearerPrefix);
    if stripped != "" then Some(stripped)
    else if cookie.Some? && cookie.value != "" then Some(cookie.value)
    else None
  }

  /** The decision RequireToken takes, step by step as the middleware does. */
  function Decide(authorization: string, cookie: Option<string>, parse: TokenParser, roles: seq<string>): (g: Gate)
    ensures g.parsedToken == TokenOf(authorization, cookie)
    ensures g.verdict == Denied(StatusUnauthorized, "Please login first") <==> g.parsedToken.None?
    ensures g.verdict.Allowed? <==>
      && g.parsedToken.Some?
      && parse(g.parsedToken.value).err.None?
      && parse(g.parsedToken.value).value.role.Some?
      && parse(g.parsedToken.value).value.role.value in roles
    ensures g.user.Some? <==> g.parsedToken.Some? && parse(g.parsedToken.value).err.None?
  {
    var header := TrimPrefix(authorization, BearerPrefix);
    if header == "" && cookie.None? then
      Gate(Denied(StatusUnauthorized, "Please login first"), None, None)
    else
      var token := if header == "" then cookie.value else header;
      if token == "" then
        Gate(Denied(StatusUnauthorized, "Please login first"), None, None)
      else
        var claims := parse(token);
        if claims.err.Some? then
          Gate(Denied(StatusInternalServerError, "RequireToken: Error parsing token"), Some(token), None)
        else
          var user := Some(claims.value.userId);
          if claims.value.role.None? then
            Gate(Denied(StatusInternalServerError, "Missing role in token"), Some(token), user)
          else if claims.value.role.value !in roles then
            Gate(Denied(StatusForbidden, "Invalid role"), Some(token), user)
          else
            Gate(Allowed, Some(token), user)
  }

  /** `isValidRole`: exact, case-sensitive membership; false for an empty list. */
  method IsValidRole(userRole: string, validRoles: seq<string>) returns (valid: bool)
    ensures valid <==> exists i :: 0 <= i < |validRoles| && validRoles[i] == userRole
  {
    for i := 0 to |validRoles|
      invariant forall k :: 0 <= k < i ==> validRoles[k] != userRole
    {
      if userRole == validRoles[i] {
        return true;
      }
    }
    return false;
  }

  /**
   * `RequireToken(roles...)` applied to one request: an error response (which
   * stops the chain) or nothing written, in which case the next handler runs.
   */
  method RequireToken(ctx: Context, roles: seq<string>, parse: TokenParser)
    modifies ctx
    ensures var g := Decide(Header(ctx.request, "Authorization"), CookieValue(ctx.request, "token"), parse, roles);
      && (g.verdict.Denied? ==> ctx.Replied(g.verdict.code, ErrorBody(g.verdict.message)) && ctx.aborted)
      && (g.verdict.Allowed? ==>
            ctx.status == old(ctx.status) && ctx.body == old(ctx.body) && ctx.aborted == old(ctx.aborted))
      && ctx.keys == (if g.user.Some? then old(ctx.keys)[UserKey := g.user.value] else old(ctx.keys))
    ensures ctx.cookies == old(ctx.cookies) && ctx.exited == old(ctx.exited)
  {
    var tokenHeader := TrimPrefix(Header(ctx.request, "Authorization"), BearerPrefix);
    if tokenHeader == "" {
      var cookie := CookieValue(ctx.request, "token");
      if cookie.None? {
        ctx.SendError(StatusUnauthorized, "Please login first");
        return;
      }
      tokenHeader := cookie.value;
    }
    if tokenHeader == "" {
      ctx.SendError(StatusUnauthorized, "Please login first");
      return;
    }
    var claims := parse(tokenHeader);
    if claims.err.Some? {
      ctx.SendError(StatusInternalServerError, "RequireToken: Error parsing token");
      return;
    }
    ctx.Set(UserKey, claims.value.userId);
    if claims.value.role.None? {
      ctx.SendError(StatusInternalServerError, "Missing role in token");
      return;
    }
    var valid := IsValidRole(claims.value.role.value, roles);
    if !valid {
      ctx.SendError(StatusForbidden, "Invalid role");
      return;
    }
    // ctx.Next(): nothing is written and the route's handler runs next.
  }

  // ---- Properties of the gate ----

  /** A non-empty header token is used with one "Bearer " removed, and the cookie is never read. */
  lemma HeaderTokenWins(authorization: string, c1: Option<string>, c2: Option<string>,
                        parse: TokenParser, roles: seq<string>)
    requires TrimPrefix(authorization, BearerPrefix) != ""
    ensures Decide(authorization, c1, parse, roles) == Decide(authorization, c2, parse, roles)
    ensures Decide(authorization, c1, parse, roles).parsedToken == Some(TrimPrefix(authorization, BearerPrefix))
  {
  }

  /** Without a header token, a non-empty cookie's value is the token handed to the parser. */
  lemma CookieTokenUsed(authorization: string, cookie: string, parse: TokenParser, roles: seq<string>)
    requires TrimPrefix(authorization, BearerPrefix) == "" && cookie != ""
    ensures Decide(authorization, Some(cookie), parse, roles).parsedToken == Some(cookie)
  {
  }

  /** Only one prefix is removed, and a header without it reaches the parser unchanged. */
  lemma TrimOnlyOnePrefix(token: string)
    ensures TrimPrefix(BearerPrefix + token, BearerPrefix) == token
    ensures !(BearerPrefix <= token) ==> TrimPrefix(token, BearerPrefix) == token
  {
    assert BearerPrefix <= BearerPrefix + token;
    assert (BearerPrefix + token)[|BearerPrefix|..] == token;
  }

  /** No header token and no cookie, or an empty cookie: 401 and the parser is never called. */
  lemma MissingTokenIsUnauthorized(authorization: string, cookie: Option<string>,
                                   parse: TokenParser, roles: seq<string>)
    requires TrimPrefix(authorization, BearerPrefix) == ""
    requires cookie.None? || cookie == Some("")
    ensures Decide(authorization, cookie, parse, roles) ==
            Gate(Denied(StatusUnauthorized, "Please login first"), None, None)
  {
  }

  /** A parser failure is a 500, not a 401, and stores no user. */
  lemma ParseFailureIsServerError(authorization: string, cookie: Option<string>,
                                  parse: TokenParser, roles: seq<string>)
    requires TokenOf(authorization, cookie).Some?
    requires parse(TokenOf(authorization, cookie).value).err.Some?
    ensures Decide(authorization, cookie, parse, roles).verdict ==
            Denied(StatusInternalServerError, "RequireToken: Error parsing token")
    ensures Decide(authorization, cookie, parse, roles).user.None?
  {
  }

  /**
   * Once the token parses, its user id is stored whatever follows; claims
   * without a role give 500, a role outside the list 403, and a listed role
   * lets the request through.
   */
  lemma ParsedTokenOutcomes(authorization: string, cookie: Option<string>,
                            parse: TokenParser, roles: seq<string>)
    requires TokenOf(authorization, cookie).Some?
    requires parse(TokenOf(authorization, cookie).value).err.None?
    ensures var claims := parse(TokenOf(authorization, cookie).value).value;
      var g := Decide(authorization, cookie, parse, roles);
      && g.user == Some(claims.userId)
      && (claims.role.None? ==> g.verdict == Denied(StatusInternalServerError, "Missing role in token"))
      && (claims.role.Some? && claims.role.value !in roles ==> g.verdict == Denied(StatusForbidden, "Invalid role"))
      && (claims.role.Some? && claims.role.value in roles ==> g.verdict == Allowed)
  {
  }
}
