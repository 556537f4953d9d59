/**
 * The slice of an Express request/response pair the handlers touch: the
 * `jwt` request cookie, `request.user`, the `response.cookie` calls made so
 * far, and how the handler finished (a reply, `next()` or `next(error)`).
 */
module Http {
  import opened Wrappers
  import opened Domain

  datatype Status = Ok | BadRequest | Unauthorized | Forbidden | NotAcceptable

  function Code(s: Status): (c: int)
    ensures s == Ok <==> c == 200
    ensures s != Ok ==> 400 <= c < 500
  {
    match s
    case Ok => 200
    case BadRequest => 400
    case Unauthorized => 401
    case Forbidden => 403
    case NotAcceptable => 406
  }

  /** One `response.cookie(name, value, options)` call; absent options are `None`. */
  datatype CookieWrite = CookieWrite(
    name: string, value: string, httpOnly: bool,
    secure: Option<bool>, sameSite: Option<string>,
    maxAgeMs: Option<int>, expiresAtEpoch: bool)

  /** `response.cookie('jwt', '', { httpOnly: true, expires: new Date(0) })`. */
  const ClearJwt: CookieWrite := CookieWrite("jwt", "", true, None, None, None, true)

  datatype Outcome =
    | Unfinished                                // the handler has not finished
    | Replied(status: Status, message: string)  // an error or a message-only success reply
    | RepliedUser(user: PublicUser)             // a success reply carrying a user
    | Passed                                    // `next()`
    | PassedError                               // `next(error)`

  class Exchange {
    var jwt: Option<string>
    var user: Option<PublicUser>
    var cookies: seq<CookieWrite>
    var outcome: Outcome

    constructor (jwt: Option<string>)
      ensures this.jwt == jwt && user == None && cookies == [] && outcome == Unfinished
    {
      this.jwt := jwt;
      user := None;
      cookies := [];
      outcome := Unfinished;
    }
  }
}
