/**
 * The login, registration and logout handlers and their routes
 * (cmd/delivery/controllers/authController/authController.go). None of the
 * three routes has a role gate.
 */
module AuthController {
  import opened Wrappers
  import opened Failures
  import opened Entity
  import opened Dto
  import opened Http
  import opened UserRepository
  import opened AuthUseCase

  const TokenCookie := "token"
  const TokenMaxAge := 3600
  const BadCredentials := "Invalid email or password"

  /** The cookie a successful login sets: the token, for an hour, on every path, hidden from scripts. */
  function LoginCookie(token: string): (c: Cookie)
    ensures c.name == TokenCookie && c.value == token && c.maxAge == 3600 && c.httpOnly
  {
    Cookie(TokenCookie, token, TokenMaxAge, "/", "", false, true)
  }

  /** The cookie logout sets: the token emptied and expired at once. */
  function LogoutCookie(): (c: Cookie)
    ensures c.name == TokenCookie && c.value == "" && c.maxAge < 0 && c.httpOnly
  {
    Cookie(TokenCookie, "", -1, "/", "", false, true)
  }

  /** The routes `Route` registers under a group prefix, none of them gated. */
  function Routes(prefix: string): seq<Http.Route>
  {
    [ Http.Route(POST, prefix + PostLogin, None, Endpoint.Login),
      Http.Route(POST, prefix + PostRegister, None, Endpoint.Register),
      Http.Route(GET, prefix + GetLogout, None, Endpoint.Logout) ]
  }

  class AuthController {
    const users: UserStore
    const crypto: Crypto
    const rg: RouterGroup

    constructor (users: UserStore, crypto: Crypto, rg: RouterGroup)
      ensures this.users == users && this.crypto == crypto && this.rg == rg
    {
      this.users := users;
      this.crypto := crypto;
      this.rg := rg;
    }

    /**
     * Logs in. The handler looks the user up and checks the password itself,
     * answering 401 before the use case is called; the use case then looks the
     * user up again (`loginFault` is that second lookup's fault) and makes the
     * token, whose errors are 500. On success the token goes into the cookie.
     */
    method LoginHandler(ctx: Context, payload: Binding<AuthRequestLoginDto>, lookupFault: Fault, loginFault: Fault)
      modifies ctx
      ensures payload.Malformed? ==> ctx.Responded(StatusBadRequest, ErrorBody(payload.message))
      ensures payload.Decoded? ==>
        var found := users.FindByEmail(payload.value.email, lookupFault);
        var login := AuthUseCase.Login(users, crypto, payload.value, loginFault);
        && (found.err.Some? || !crypto.checkPasswordHash(payload.value.password, found.value.password) ==>
              ctx.Responded(StatusUnauthorized, ErrorBody(BadCredentials)))
        && (found.err.None? && crypto.checkPasswordHash(payload.value.password, found.value.password) ==>
              && (login.err.Some? ==> ctx.Responded(StatusInternalServerError, ErrorBody(Message(login.err.value))))
              && (login.err.None? ==>
                    && ctx.cookies == old(ctx.cookies) + [LoginCookie(login.value.token)]
                    && ctx.status == StatusOK && ctx.body == SuccessBody("Successfully Login")
                    && ctx.keys == old(ctx.keys) && ctx.aborted == old(ctx.aborted) && ctx.exited == old(ctx.exited)))
      ensures |ctx.cookies| > |old(ctx.cookies)| ==>
        exists k :: 0 <= k < |users.rows| && users.rows[k].email == payload.value.email
          && crypto.checkPasswordHash(payload.value.password, users.rows[k].password)
    {
      if payload.Malformed? {
        ctx.SendError(StatusBadRequest, payload.message);
        return;
      }
      var user := AuthUseCase.FindUserByEmail(users, payload.value.email, lookupFault);
      if user.err.Some? || !crypto.checkPasswordHash(payload.value.password, user.value.password) {
        ctx.SendError(StatusUnauthorized, BadCredentials);
        return;
      }
      var token := AuthUseCase.Login(users, crypto, payload.value, loginFault);
      if token.err.Some? {
        ctx.SendError(StatusInternalServerError, Message(token.err.value));
        return;
      }
      ctx.SetCookie(LoginCookie(token.value.token));
      ctx.SendSuccess("Successfully Login");
    }

    /**
     * Registers a user. A confirmation that differs from the password is 400
     * and nothing is stored; any error of the use case, a taken email
     * included, is 500; success is 201 with the new user's public fields.
     */
    method RegisterHandler(ctx: Context, payload: Binding<AuthRequestRegisterDto>, now: Time,
                           lookupFault: Fault, insertFault: Fault)
      requires users.Valid()
      modifies ctx, users
      ensures users.Valid()
      ensures payload.Malformed? ==>
        && ctx.Responded(StatusBadRequest, ErrorBody(payload.message))
        && users.rows == old(users.rows) && users.nextId == old(users.nextId)
      ensures payload.Decoded? && payload.value.password != payload.value.passwordConfirm ==>
        && ctx.Responded(StatusBadRequest, ErrorBody("Password not match"))
        && users.rows == old(users.rows) && users.nextId == old(users.nextId)
      ensures payload.Decoded? && payload.value.password == payload.value.passwordConfirm ==>
        var p := payload.value;
        var err := old(AuthUseCase.RegisterError(users, crypto, p, lookupFault, insertFault));
        && (err.Some? ==>
              && ctx.Responded(StatusInternalServerError, ErrorBody(Message(err.value)))
              && users.rows == old(users.rows) && users.nextId == old(users.nextId))
        && (err.None? ==>
              && users.rows == old(users.rows)
                   + [NewUser(p, crypto.hashPassword(p.password).value).(updatedAt := now, id := old(users.nextId))]
              && users.nextId == old(users.nextId) + 1
              && ctx.Responded(StatusCreated, CreatedBody("User registered successfully",
                   Registered(old(users.nextId), p.firstName + " " + p.lastName, p.email, p.role, 0, now, None))))
    {
      if payload.Malformed? {
        ctx.SendError(StatusBadRequest, payload.message);
        return;
      }
      if payload.value.password != payload.value.passwordConfirm {
        ctx.SendError(StatusBadRequest, "Password not match");
        return;
      }
      var user, err := AuthUseCase.Register(users, crypto, payload.value, now, lookupFault, insertFault);
      if err.Some? {
        ctx.SendError(StatusInternalServerError, Message(err.value));
        return;
      }
      ctx.SendCreate("User registered successfully",
        Registered(user.id, user.firstName + " " + user.lastName, user.email, user.role,
                   user.createdAt, user.updatedAt, user.deletedAt));
    }

    /** Logs out by expiring the token cookie. */
    method LogoutHandler(ctx: Context)
      modifies ctx
      ensures ctx.cookies == old(ctx.cookies) + [LogoutCookie()]
      ensures ctx.status == StatusOK && ctx.body == SuccessBody("Logout successfully!")
      ensures ctx.keys == old(ctx.keys) && ctx.aborted == old(ctx.aborted) && ctx.exited == old(ctx.exited)
    {
      ctx.SetCookie(LogoutCookie());
      ctx.SendSuccess("Logout successfully!");
    }

    /** Registers the three routes, without a gate. */
    method Route()
      modifies rg
      ensures rg.routes == old(rg.routes) + Routes(rg.prefix)
    {
      rg.Handle(POST, PostLogin, None, Endpoint.Login);
      rg.Handle(POST, PostRegister, None, Endpoint.Register);
      rg.Handle(GET, GetLogout, None, Endpoint.Logout);
    }
  }
}
