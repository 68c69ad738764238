/** The shapes of what the routes send back: status, JSON body and cookie. */
module Responses {
  import opened Wrappers
  import opened UserStore

  /** A signed session token, represented by what it carries: the user id in
      its payload and the lifetime handed to the signer. The signature and the
      secret are not part of this model. */
  datatype Token = Token(userId: string, expiresIn: string)

  datatype CookieValue = Signed(token: Token) | Plain(text: string)

  /** `expires` is a date in milliseconds since the epoch. */
  datatype CookieOptions = CookieOptions(
    httpOnly: bool,
    sameSite: Option<string>,
    secure: bool,
    maxAge: Option<int>,
    expires: Option<int>)

  datatype Cookie = Cookie(name: string, value: CookieValue, options: CookieOptions)

  datatype Body =
    | UserBody(user: PublicUser)
    | MessageBody(message: string)
    | ProfileBody(message: string, user: PublicUser)

  /** `cookie` is the one `res.cookie` call made before the body was sent, if any. */
  datatype Reply = Reply(status: int, body: Body, cookie: Option<Cookie>)

  /** A reply that sets no cookie and carries only a message. */
  function ErrorReply(status: int, message: string): (r: Reply)
    ensures r.status == status && r.body.MessageBody? && r.body.message == message
    ensures r.cookie.None?
  {
    Reply(status, MessageBody(message), None)
  }
}
