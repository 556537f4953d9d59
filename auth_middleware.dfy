/**
 * `protectAuth`, the session gate in front of every protected route, and
 * `protectRoles`, the role allow-list applied after it. JWT verification is
 * a parameter: `verify(token)` is the id the token carries, or `None` when
 * verification throws.
 */
module AuthMiddleware {
  import opened Wrappers
  import opened Domain
  import opened Http

  const PleaseLogIn := "Vui lòng đăng nhập"
  const AccountSuspended := "Tài khoản đã bị tạm ngưng. Vui lòng liên hệ quản trị viên."
  const PasswordExpired := "Mật khẩu đã hết hạn. Vui lòng đăng nhập lại."
  const NoPermission := "Không có quyền thực hiện tác vụ"

  /** Where the gate's decision chain stops. */
  datatype Gate = NoToken | BadToken | UnknownUser | Suspended | Stale | Admitted(user: PublicUser)

  /** The decision chain of `protectAuth`, in the order the checks are made. */
  function Decide(jwt: Option<string>, verify: string -> Option<string>, users: seq<User>): Gate {
    if jwt.None? || jwt.value == "" then NoToken
    else match verify(jwt.value)
      case None => BadToken
      case Some(id) =>
        match FindById(users, id)
        case None => UnknownUser
        case Some(u) =>
          if !u.isActive then Suspended
          else if u.hasPasswordChanged then Stale
          else Admitted(WithoutPassword(u))
  }

  /** How the handler finishes for each decision. */
  function Finish(g: Gate): (o: Outcome)
    ensures o == Passed <==> g.Admitted?
    ensures o == PassedError <==> g == BadToken
    ensures o.Replied? && o.status == NotAcceptable <==> g == Suspended || g == Stale
    ensures o.Replied? && o.status == BadRequest <==> g == NoToken || g == UnknownUser
  {
    match g
    case NoToken => Replied(BadRequest, PleaseLogIn)
    case BadToken => PassedError
    case UnknownUser => Replied(BadRequest, PleaseLogIn)
    case Suspended => Replied(NotAcceptable, AccountSuspended)
    case Stale => Replied(NotAcceptable, PasswordExpired)
    case Admitted(_) => Passed
  }

  /** `protectAuth(request, response, next)`. */
  method ProtectAuth(ex: Exchange, verify: string -> Option<string>, users: seq<User>)
    modifies ex
    ensures ex.jwt == old(ex.jwt)
    ensures ex.outcome == Finish(Decide(old(ex.jwt), verify, users))
    ensures ex.cookies == old(ex.cookies)
      + (if Decide(old(ex.jwt), verify, users) in {Suspended, Stale} then [ClearJwt] else [])
    ensures ex.user == (if Decide(old(ex.jwt), verify, users).Admitted?
                        then Some(Decide(old(ex.jwt), verify, users).user) else old(ex.user))
  {
    var token := ex.jwt;
    if token.None? || token.value == "" {
      ex.outcome := Replied(BadRequest, PleaseLogIn);
      return;
    }
    var decoded := verify(token.value);
    if decoded.None? {
      ex.outcome := PassedError;
      return;
    }
    var found := FindById(users, decoded.value);
    if found.None? {
      ex.outcome := Replied(BadRequest, PleaseLogIn);
      return;
    }
    var user := WithoutPassword(found.value);
    if !user.isActive {
      ex.cookies := ex.cookies + [ClearJwt];
      ex.outcome := Replied(NotAcceptable, AccountSuspended);
      return;
    }
    if user.hasPasswordChanged {
      ex.cookies := ex.cookies + [ClearJwt];
      ex.outcome := Replied(NotAcceptable, PasswordExpired);
      return;
    }
    ex.user := Some(user);
    ex.outcome := Passed;
  }

  /** Without a token nothing is verified or looked up: the answer is the same whatever the verifier and the table. */
  lemma NoTokenNoLookup(jwt: Option<string>, v1: string -> Option<string>, v2: string -> Option<string>,
                        users1: seq<User>, users2: seq<User>)
    requires jwt.None? || jwt.value == ""
    ensures Decide(jwt, v1, users1) == Decide(jwt, v2, users2) == NoToken
  {
  }

  /** An inactive user is reported suspended even when its password flag is also set. */
  lemma SuspensionBeforeStaleness(jwt: Option<string>, verify: string -> Option<string>, users: seq<User>)
    requires jwt.Some? && jwt.value != "" && verify(jwt.value).Some?
    requires FindById(users, verify(jwt.value).value).Some?
    requires !FindById(users, verify(jwt.value).value).value.isActive
    ensures Decide(jwt, verify, users) == Suspended
  {
  }

  /** Exactly an active user with the flag clear gets through, and it is attached without its password. */
  lemma AdmittedExactly(jwt: Option<string>, verify: string -> Option<string>, users: seq<User>)
    ensures Decide(jwt, verify, users).Admitted?
      <==> jwt.Some? && jwt.value != "" && verify(jwt.value).Some?
           && FindById(users, verify(jwt.value).value).Some?
           && FindById(users, verify(jwt.value).value).value.isActive
           && !FindById(users, verify(jwt.value).value).value.hasPasswordChanged
    ensures Decide(jwt, verify, users).Admitted? ==>
      Decide(jwt, verify, users).user == WithoutPassword(FindById(users, verify(jwt.value).value).value)
  {
  }

  /** `protectRoles(roles)`: an empty allow-list admits anyone, otherwise the attached user's role must be listed. */
  function ProtectRoles(roles: seq<Role>, user: Option<PublicUser>): (o: Outcome)
    ensures o == Passed <==> |roles| == 0 || (user.Some? && user.value.role in roles)
    ensures o != Passed ==> o == Replied(Forbidden, NoPermission)
  {
    if |roles| > 0 && !(user.Some? && user.value.role in roles) then Replied(Forbidden, NoPermission)
    else Passed
  }
}
