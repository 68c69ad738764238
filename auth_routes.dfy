/**
 * The `/register`, `/login`, `/logout` and `/me` handlers of the auth router.
 * Password comparison is the store's `comparePassword`, passed in as a
 * predicate; an exception thrown by the store is passed in as `fault`.
 */
module AuthRoutes {
  import opened Wrappers
  import opened UserStore
  import opened Responses

  const InvalidCredentials := "Invalid email or password"
  const LoggedOut := "Logged out successfully"
  /** The token lifetime handed to the signer. */
  const TokenLifetime := "30d"
  /** Thirty days in milliseconds. */
  const SessionMaxAge: int := 30 * 24 * 60 * 60 * 1000

  /** `user.comparePassword(candidate)`, left uninterpreted. */
  type PasswordCheck = (StoredUser, string) -> bool

  /** `jwt.sign({ id }, secret, { expiresIn: '30d' })`. */
  function Sign(id: string): (t: Token)
    ensures t.userId == id && t.expiresIn == "30d"
  {
    Token(id, TokenLifetime)
  }

  /** The cookie that register and login set. */
  function SessionCookie(id: string): (c: Cookie)
    ensures c.name == "token" && c.value == Signed(Token(id, "30d"))
    ensures c.options.httpOnly && c.options.secure && c.options.sameSite == Some("strict")
    ensures c.options.maxAge == Some(2592000000) && c.options.expires.None?
  {
    Cookie("token", Signed(Sign(id)), CookieOptions(true, Some("strict"), true, Some(SessionMaxAge), None))
  }

  /** The cookie that logout sets: the same name, an empty value, expired at the epoch. */
  function ClearedCookie(): (c: Cookie)
    ensures c.name == "token" && c.value == Plain("")
    ensures c.options.httpOnly && !c.options.secure && c.options.sameSite.None?
    ensures c.options.expires == Some(0) && c.options.maxAge.None?
  {
    Cookie("token", Plain(""), CookieOptions(true, None, false, None, Some(0)))
  }

  /**
   * POST /register: create the user, then set the session cookie and answer
   * 201 with its public fields; a creation error answers 400 with its message.
   */
  method Register(users: UserCollection, username: string, email: string, password: string,
                  newId: string, rejection: Option<string>)
    returns (reply: Reply)
    requires users.Valid()
    requires forall u :: u in users.records ==> u.id != newId
    requires (exists u :: u in users.records && u.email == email) ==> rejection.Some?
    modifies users
    ensures users.Valid()
    ensures rejection.Some? ==>
      && users.records == old(users.records)
      && reply == ErrorReply(400, rejection.value)
    ensures rejection.None? ==>
      && users.records == old(users.records) + [StoredUser(newId, username, email, password)]
      && reply == Reply(201, UserBody(PublicUser(newId, username, email)), Some(SessionCookie(newId)))
  {
    var created := users.Create(username, email, password, newId, rejection);
    match created
    case Rejected(message) =>
      reply := ErrorReply(400, message);
    case Created(user) =>
      var cookie := SessionCookie(user.id);
      reply := Reply(201, UserBody(Public(user)), Some(cookie));
  }

  /**
   * POST /login: a known email whose password matches gets the session
   * cookie and its public fields; anything else gets the one 401 reply.
   */
  function Login(records: seq<StoredUser>, email: string, password: string,
                 comparePassword: PasswordCheck, fault: Option<string>): (reply: Reply)
    ensures fault.Some? ==> reply == ErrorReply(400, fault.value)
    ensures fault.None? ==> reply.status == 200 || reply == ErrorReply(401, InvalidCredentials)
    ensures reply.status == 200 <==>
      fault.None? && FindByEmail(records, email).Some? && comparePassword(FindByEmail(records, email).value, password)
    ensures reply.status == 200 ==>
      var u := FindByEmail(records, email).value;
      && reply.body == UserBody(PublicUser(u.id, u.username, u.email))
      && reply.cookie == Some(SessionCookie(u.id))
    ensures reply.cookie.Some? <==> reply.status == 200
  {
    if fault.Some? then ErrorReply(400, fault.value)
    else match FindByEmail(records, email)
      case Some(user) =>
        if comparePassword(user, password) then
          Reply(200, UserBody(Public(user)), Some(SessionCookie(user.id)))
        else
          ErrorReply(401, InvalidCredentials)
      case None =>
        ErrorReply(401, InvalidCredentials)
  }

  /** An unknown email and a wrong password get the very same reply. */
  lemma UnknownEmailLikeWrongPassword(records1: seq<StoredUser>, records2: seq<StoredUser>,
                                      email: string, password: string, comparePassword: PasswordCheck)
    requires FindByEmail(records1, email).None?
    requires exists u :: u in records2 && u.email == email
    requires forall u :: u in records2 && u.email == email ==> !comparePassword(u, password)
    ensures Login(records1, email, password, comparePassword, None)
         == Login(records2, email, password, comparePassword, None)
         == ErrorReply(401, InvalidCredentials)
  {
  }

  /** Over a store with distinct emails, login succeeds exactly when some
      record has that email and accepts the password. */
  lemma LoginSucceedsIff(records: seq<StoredUser>, email: string, password: string, comparePassword: PasswordCheck)
    requires DistinctKeys(records)
    ensures Login(records, email, password, comparePassword, None).status == 200 <==>
      exists u :: u in records && u.email == email && comparePassword(u, password)
  {
  }

  /** POST /logout: always 200, overwriting the session cookie; no store is consulted. */
  function Logout(): (reply: Reply)
    ensures reply.status == 200 && reply.body == MessageBody("Logged out successfully")
    ensures reply.cookie == Some(ClearedCookie())
  {
    Reply(200, MessageBody(LoggedOut), Some(ClearedCookie()))
  }

  /** The reply of GET /me: status and the user the session gate attached. */
  datatype Identity<U> = Identity(status: int, user: U)

  /** GET /me: the user the session gate attached to the request, as it is. */
  function Me<U>(attached: U): (reply: Identity<U>)
    ensures reply.status == 200 && reply.user == attached
  {
    Identity(200, attached)
  }
}
