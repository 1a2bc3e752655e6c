/** Account login and registration: the shared credential format rule and
    the ordered outcome codes of the two handlers. Password hashing and
    comparison, and token signing, are library calls and are passed in. */
module Auth {
  import opened Common
  import opened Directory
  import opened Api

  const MSG_EMPTY_CREDENTIALS := "账号和密码不能为空"
  const MSG_BAD_FORMAT := "账号和密码必须是6-10位，只包含数字和字母"
  const MSG_BAD_CREDENTIALS := "账号或密码错误"
  const MSG_DISABLED := "账号已被禁用"
  const MSG_LOGGED_IN := "登录成功"
  const MSG_TAKEN := "该账号已被注册"
  const MSG_REGISTERED := "注册成功"
  const MSG_SERVER_ERROR := "服务器错误"

  /** The catch-all answer of both handlers: code and status 500. */
  const SERVER_FAILURE: int := 500

  /** Token lifetime `'7d'` and the cookie's `maxAge`, both in seconds. */
  const TOKEN_LIFETIME_SECONDS: int := 7 * 24 * 60 * 60
  const COOKIE_MAX_AGE: int := 60 * 60 * 24 * 7

  const MIN_LENGTH := 6
  const MAX_LENGTH := 10

  /** `[a-zA-Z0-9]`. */
  predicate IsAlphanumeric(c: char) {
    ('a' <= c <= 'z') || ('A' <= c <= 'Z') || ('0' <= c <= '9')
  }

  /** `/^[a-zA-Z0-9]{6,10}$/`: six to ten characters, all letters or digits. */
  predicate WellFormed(s: string) {
    MIN_LENGTH <= |s| <= MAX_LENGTH && forall i :: 0 <= i < |s| ==> IsAlphanumeric(s[i])
  }

  /** The regular expression run as a scan: the length check, then one pass
      that stops at the first character outside the class. */
  method MatchesCredentialRule(s: string) returns (ok: bool)
    ensures ok <==> WellFormed(s)
  {
    if |s| < MIN_LENGTH || |s| > MAX_LENGTH {
      return false;
    }
    var i := 0;
    while i < |s|
      invariant 0 <= i <= |s|
      invariant forall k :: 0 <= k < i ==> IsAlphanumeric(s[k])
    {
      if !IsAlphanumeric(s[i]) {
        return false;
      }
      i := i + 1;
    }
    return true;
  }

  /** The JSON body's `account` and `password`; absent when not supplied. */
  datatype Credentials = Credentials(account: Option<string>, password: Option<string>)

  /** The checks both handlers share, in order: both fields present, then
      both well-formed. `None` means the handler goes on. */
  function CredentialCheck(c: Credentials): (refusal: Option<Reply<Session>>)
    ensures !Present(c.account) || !Present(c.password) ==>
              refusal == Some(Refuse(PARAM_ERROR, 400, MSG_EMPTY_CREDENTIALS))
    ensures Present(c.account) && Present(c.password) && !(WellFormed(c.account.value) && WellFormed(c.password.value)) ==>
              refusal == Some(Refuse(PARAM_ERROR, 400, MSG_BAD_FORMAT))
    ensures refusal.None? <==> c.account.Some? && c.password.Some?
                               && WellFormed(c.account.value) && WellFormed(c.password.value)
  {
    if !Present(c.account) || !Present(c.password) then Some(Refuse(PARAM_ERROR, 400, MSG_EMPTY_CREDENTIALS))
    else if !WellFormed(c.account.value) || !WellFormed(c.password.value) then Some(Refuse(PARAM_ERROR, 400, MSG_BAD_FORMAT))
    else None
  }

  /** What a successful login or registration returns: the id and account
      and nothing else. */
  datatype Session = Session(userId: int, account: string)

  /** The signed claims of a session token. */
  datatype Claims = Claims(userId: int, account: string, lifetimeSeconds: int)

  /** The `token` cookie set on login. */
  datatype Cookie = Cookie(name: string, token: string, httpOnly: bool, path: string, maxAge: int)

  datatype LoginResult = LoginResult(reply: Reply<Session>, cookie: Option<Cookie>)

  /** `POST /api/auth/login`. `body` is the parsed JSON body, `users` the
      account lookup's table, `matches(password, hash)` the password
      comparison and `sign` the token signer. */
  function Login(body: Fetch<Credentials>, users: Fetch<seq<User>>, matches: (string, string) -> bool,
                 sign: Claims -> string): (r: LoginResult)
    ensures body.Threw? ==> r == LoginResult(Refuse(SERVER_FAILURE, 500, MSG_SERVER_ERROR), None)
    ensures body.Fetched? && CredentialCheck(body.value).None? && users.Threw? ==>
              r == LoginResult(Refuse(SERVER_FAILURE, 500, MSG_SERVER_ERROR), None)
    ensures body.Fetched? && CredentialCheck(body.value).Some? ==>
              r == LoginResult(CredentialCheck(body.value).value, None)
    ensures r.cookie.Some? <==> r.reply.code == SUCCESS
    ensures r.reply.code == SUCCESS <==>
              && body.Fetched? && CredentialCheck(body.value).None? && users.Fetched?
              && var u := UserByAccount(users.value, body.value.account.value);
                 u.Some? && matches(body.value.password.value, u.value.encPassword) && u.value.status == 1
    ensures r.reply.code == SUCCESS ==>
              var u := UserByAccount(users.value, body.value.account.value).value;
              && r.reply == Reply(SUCCESS, 200, MSG_LOGGED_IN, Some(Session(u.id, u.account)))
              && r.cookie == Some(Cookie("token", sign(Claims(u.id, u.account, TOKEN_LIFETIME_SECONDS)), true, "/",
                                         COOKIE_MAX_AGE))
    ensures r.reply.code == ACCOUNT_DISABLED <==>
              && body.Fetched? && CredentialCheck(body.value).None? && users.Fetched?
              && var u := UserByAccount(users.value, body.value.account.value);
                 u.Some? && matches(body.value.password.value, u.value.encPassword) && u.value.status != 1
    ensures r.reply.code == ACCOUNT_DISABLED ==> r.reply == Refuse(ACCOUNT_DISABLED, 403, MSG_DISABLED)
  {
    match body
    case Threw => LoginResult(Refuse(SERVER_FAILURE, 500, MSG_SERVER_ERROR), None)
    case Fetched(c) =>
      if CredentialCheck(c).Some? then LoginResult(CredentialCheck(c).value, None)
      else match users
        case Threw => LoginResult(Refuse(SERVER_FAILURE, 500, MSG_SERVER_ERROR), None)
        case Fetched(table) =>
          var user := UserByAccount(table, c.account.value);
          if user.None? then LoginResult(Refuse(BAD_CREDENTIALS, 401, MSG_BAD_CREDENTIALS), None)
          else if !matches(c.password.value, user.value.encPassword) then
            LoginResult(Refuse(BAD_CREDENTIALS, 401, MSG_BAD_CREDENTIALS), None)
          else if user.value.status != 1 then LoginResult(Refuse(ACCOUNT_DISABLED, 403, MSG_DISABLED), None)
          else
            var u := user.value;
            var token := sign(Claims(u.id, u.account, TOKEN_LIFETIME_SECONDS));
            LoginResult(Reply(SUCCESS, 200, MSG_LOGGED_IN, Some(Session(u.id, u.account))),
                        Some(Cookie("token", token, true, "/", COOKIE_MAX_AGE)))
  }

  /** An unknown account and a wrong password are indistinguishable to the
      caller: same code, status and message, and no cookie. */
  lemma UnknownAccountLooksLikeWrongPassword(c: Credentials, table: seq<User>, matches: (string, string) -> bool,
                                             sign: Claims -> string, u: User)
    requires CredentialCheck(c).None?
    requires UserByAccount(table, c.account.value).None?
    requires UserByAccount([u] + table, c.account.value) == Some(u) && !matches(c.password.value, u.encPassword)
    ensures Login(Fetched(c), Fetched(table), matches, sign) == Login(Fetched(c), Fetched([u] + table), matches, sign)
    ensures Login(Fetched(c), Fetched(table), matches, sign).reply == Refuse(BAD_CREDENTIALS, 401, MSG_BAD_CREDENTIALS)
  {
  }

  /** The disabled-account answer is only given to a caller who knows the
      password: a wrong password on a disabled account still says 1003. */
  lemma DisabledRevealedOnlyAfterPassword(c: Credentials, table: seq<User>, matches: (string, string) -> bool,
                                          sign: Claims -> string)
    requires CredentialCheck(c).None?
    requires UserByAccount(table, c.account.value).Some?
    requires !matches(c.password.value, UserByAccount(table, c.account.value).value.encPassword)
    ensures Login(Fetched(c), Fetched(table), matches, sign).reply.code == BAD_CREDENTIALS
  {
  }

  /** The cookie carries a token signed for the session's own user whose
      lifetime is the cookie's own lifetime, so the two expire together. */
  lemma CookieMatchesTokenLifetime(body: Fetch<Credentials>, users: Fetch<seq<User>>,
                                   matches: (string, string) -> bool, sign: Claims -> string)
    requires Login(body, users, matches, sign).cookie.Some?
    ensures var r := Login(body, users, matches, sign);
            && r.reply.data.Some?
            && r.cookie.value.token == sign(Claims(r.reply.data.value.userId, r.reply.data.value.account,
                                                   r.cookie.value.maxAge))
            && r.cookie.value.maxAge == 7 * 24 * 60 * 60
  {
  }

  /** The row `prisma.user.create` is given. */
  datatype NewUser = NewUser(account: string, encPassword: string, status: int)

  datatype RegisterResult = RegisterResult(reply: Reply<Session>, created: Option<NewUser>)

  /** `POST /api/auth/register`. `hash` is the password hashing, `insert`
      the user creation, which gives the new row's id or throws. */
  function Register(body: Fetch<Credentials>, users: Fetch<seq<User>>, hash: string -> string,
                    insert: NewUser -> Fetch<int>): (r: RegisterResult)
    ensures body.Threw? ==> r == RegisterResult(Refuse(SERVER_FAILURE, 500, MSG_SERVER_ERROR), None)
    ensures body.Fetched? && CredentialCheck(body.value).None? && users.Threw? ==>
              r == RegisterResult(Refuse(SERVER_FAILURE, 500, MSG_SERVER_ERROR), None)
    ensures body.Fetched? && CredentialCheck(body.value).Some? ==>
              r == RegisterResult(CredentialCheck(body.value).value, None)
    ensures body.Fetched? && CredentialCheck(body.value).None? && users.Fetched?
            && UserByAccount(users.value, body.value.account.value).Some? ==>
              r == RegisterResult(Refuse(ACCOUNT_TAKEN, 409, MSG_TAKEN), None)
    ensures r.created.Some? <==>
              body.Fetched? && CredentialCheck(body.value).None? && users.Fetched?
              && UserByAccount(users.value, body.value.account.value).None?
    ensures r.created.Some? ==>
              r.created.value == NewUser(body.value.account.value, hash(body.value.password.value), 1)
    ensures r.reply.code == SUCCESS <==> r.created.Some? && insert(r.created.value).Fetched?
    ensures r.reply.code == SUCCESS ==>
              r.reply == Reply(SUCCESS, 200, MSG_REGISTERED,
                               Some(Session(insert(r.created.value).value, body.value.account.value)))
  {
    match body
    case Threw => RegisterResult(Refuse(SERVER_FAILURE, 500, MSG_SERVER_ERROR), None)
    case Fetched(c) =>
      if CredentialCheck(c).Some? then RegisterResult(CredentialCheck(c).value, None)
      else match users
        case Threw => RegisterResult(Refuse(SERVER_FAILURE, 500, MSG_SERVER_ERROR), None)
        case Fetched(table) =>
          if UserByAccount(table, c.account.value).Some? then RegisterResult(Refuse(ACCOUNT_TAKEN, 409, MSG_TAKEN), None)
          else
            var row := NewUser(c.account.value, hash(c.password.value), 1);
            match insert(row)
            case Threw => RegisterResult(Refuse(SERVER_FAILURE, 500, MSG_SERVER_ERROR), Some(row))
            case Fetched(id) => RegisterResult(Reply(SUCCESS, 200, MSG_REGISTERED, Some(Session(id, row.account))), Some(row))
  }

  /** The stored row never holds the plaintext password when the hash never
      returns its input, and a new account starts enabled. */
  lemma StoresHashNotPassword(body: Fetch<Credentials>, users: Fetch<seq<User>>, hash: string -> string,
                              insert: NewUser -> Fetch<int>)
    requires forall p :: hash(p) != p
    requires Register(body, users, hash, insert).created.Some?
    ensures Register(body, users, hash, insert).created.value.encPassword != body.value.password.value
    ensures Register(body, users, hash, insert).created.value.status == 1
  {
  }

  /** Login and registration apply one rule: they refuse the same malformed
      requests with the same answer. */
  lemma SameCredentialRule(c: Credentials, users: Fetch<seq<User>>, matches: (string, string) -> bool,
                           sign: Claims -> string, hash: string -> string, insert: NewUser -> Fetch<int>)
    requires CredentialCheck(c).Some?
    ensures Login(Fetched(c), users, matches, sign).reply == Register(Fetched(c), users, hash, insert).reply
    ensures Login(Fetched(c), users, matches, sign).reply.status == 400
  {
  }

  /** A freshly registered account can log in: the created row, once in the
      table, passes every check of the login handler. */
  lemma RegisteredAccountCanLogIn(c: Credentials, table: seq<User>, hash: string -> string,
                                  matches: (string, string) -> bool, sign: Claims -> string, id: int)
    requires CredentialCheck(c).None? && UserByAccount(table, c.account.value).None?
    requires forall p :: matches(p, hash(p))
    ensures var row := NewUser(c.account.value, hash(c.password.value), 1);
            Login(Fetched(c), Fetched([User(id, row.account, row.encPassword, row.status)] + table), matches, sign).reply.code
              == SUCCESS
  {
    var row := NewUser(c.account.value, hash(c.password.value), 1);
    var stored := User(id, row.account, row.encPassword, row.status);
    assert UserByAccount([stored] + table, c.account.value) == Some(stored);
  }
}
