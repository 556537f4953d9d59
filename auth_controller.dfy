/**
 * The authentication controller: `login`, `logout` and the
 * `validateLoginData` middleware in front of `login`. bcrypt's compare and
 * JWT signing are parameters: `sign(id, expiresIn)` is the token minted for
 * the payload `{ id }`.
 */
module AuthController {
  import opened Wrappers
  import opened Domain
  import opened Http
  import AuthMiddleware
  import LoginSchema

  const UnknownUsernameMessage := "Username không tồn tại."
  const BadCredentialsMessage := "Sai username hoặc mật khẩu."
  const LogoutMessage := "Logout Successful"
  const TokenLifetime := "30d"
  const ThirtyDaysMs: int := 30 * 24 * 60 * 60 * 1000

  /** The session cookie set on a successful login. */
  function SessionCookie(token: string): (c: CookieWrite)
    ensures c.name == "jwt" && c.value == token && c.httpOnly && c.sameSite == Some("lax")
    ensures c.maxAgeMs == Some(2592000000) && !c.expiresAtEpoch
  {
    CookieWrite("jwt", token, true, Some(false), Some("lax"), Some(ThirtyDaysMs), false)
  }

  datatype LoginDecision = UnknownUsername | Inactive | WrongPassword | Authenticated(user: User)

  /** The checks of `login`, in order: the username exists, the account is active, the password matches. */
  function DecideLogin(username: string, password: string, users: seq<User>, compare: (string, string) -> bool): (d: LoginDecision)
    ensures d.Authenticated? ==>
      d.user in users && d.user.username == username && d.user.isActive && compare(password, d.user.password)
    ensures d == UnknownUsername <==> forall u :: u in users ==> u.username != username
    ensures d == Inactive <==>
      FindByUsername(users, username).Some? && !FindByUsername(users, username).value.isActive
    ensures d.Authenticated? <==>
      FindByUsername(users, username).Some? && FindByUsername(users, username).value.isActive
      && compare(password, FindByUsername(users, username).value.password)
    ensures d == WrongPassword <==>
      FindByUsername(users, username).Some? && FindByUsername(users, username).value.isActive
      && !compare(password, FindByUsername(users, username).value.password)
  {
    match FindByUsername(users, username)
    case None => UnknownUsername
    case Some(u) =>
      if !u.isActive then Inactive
      else if compare(password, u.password) then Authenticated(u)
      else WrongPassword
  }

  function RejectionMessage(d: LoginDecision): string
    requires !d.Authenticated?
  {
    match d
    case UnknownUsername => UnknownUsernameMessage
    case Inactive => AuthMiddleware.AccountSuspended
    case WrongPassword => BadCredentialsMessage
  }

  /** `login(request, response, next)` for the body `{ username, password }`. */
  method Login(ex: Exchange, username: string, password: string, users: seq<User>,
               compare: (string, string) -> bool, sign: (string, string) -> string)
    returns (users': seq<User>)
    modifies ex
    ensures ex.jwt == old(ex.jwt) && ex.user == old(ex.user)
    ensures !DecideLogin(username, password, users, compare).Authenticated? ==>
      (users' == users
       && ex.cookies == old(ex.cookies)
       && ex.outcome == Replied(Unauthorized, RejectionMessage(DecideLogin(username, password, users, compare))))
    ensures DecideLogin(username, password, users, compare).Authenticated? ==>
      var u := DecideLogin(username, password, users, compare).user;
      users' == SetPasswordChanged(users, u.id, false)
      && ex.cookies == old(ex.cookies) + [SessionCookie(sign(u.id, TokenLifetime))]
      && FindById(users', u.id).Some?
      && ex.outcome == RepliedUser(WithoutPassword(FindById(users', u.id).value))
      && !ex.outcome.user.hasPasswordChanged && ex.outcome.user.id == u.id
  {
    var found := FindByUsername(users, username);
    if found.None? {
      ex.outcome := Replied(Unauthorized, UnknownUsernameMessage);
      return users;
    }
    var user := found.value;
    if !user.isActive {
      ex.outcome := Replied(Unauthorized, AuthMiddleware.AccountSuspended);
      return users;
    }
    if compare(password, user.password) {
      users' := SetPasswordChanged(users, user.id, false);
      FindAfterSetPasswordChanged(users, user.id, false);
      var updated := FindById(users', user.id);
      var token := sign(user.id, TokenLifetime);
      ex.cookies := ex.cookies + [CookieWrite("jwt", token, true, Some(false), Some("lax"), Some(30 * 24 * 60 * 60 * 1000), false)];
      ex.outcome := RepliedUser(WithoutPassword(updated.value));
    } else {
      ex.outcome := Replied(Unauthorized, BadCredentialsMessage);
      users' := users;
    }
  }

  /** A suspended account is refused before its password is looked at: whatever is typed, whatever the hash compare says. */
  lemma InactiveRefusedWhateverPassword(users: seq<User>, u: User, password: string, compare: (string, string) -> bool)
    requires UniqueUsernames(users) && u in users && !u.isActive
    ensures DecideLogin(u.username, password, users, compare) == Inactive
    ensures RejectionMessage(DecideLogin(u.username, password, users, compare)) == AuthMiddleware.AccountSuspended
  {
    FindByOwnUsername(users, u);
  }

  /** An unknown username and a wrong password are told apart by their messages. */
  lemma RejectionsDistinguishUnknownUsername()
    ensures RejectionMessage(UnknownUsername) != RejectionMessage(WrongPassword)
  {
    assert UnknownUsernameMessage[0] != BadCredentialsMessage[0];
  }

  /** `logout`: always clears the cookie and reports success. */
  method Logout(ex: Exchange)
    modifies ex
    ensures ex.jwt == old(ex.jwt) && ex.user == old(ex.user)
    ensures ex.cookies == old(ex.cookies) + [ClearJwt]
    ensures ex.outcome == Replied(Ok, LogoutMessage)
  {
    ex.cookies := ex.cookies + [CookieWrite("jwt", "", true, None, None, None, true)];
    ex.outcome := Replied(Ok, LogoutMessage);
  }

  /** `validateLoginData`: `next()` exactly when the body parses, otherwise `next(error)`. */
  function ValidateLoginData(body: LoginSchema.LoginBody): (o: Outcome)
    ensures o == Passed <==> LoginSchema.Accepts(body)
    ensures o != Passed ==> o == PassedError
  {
    if LoginSchema.Parse(body).Success? then Passed else PassedError
  }
}
