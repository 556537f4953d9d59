/**
 * How login, password changes and the session gate fit together. The
 * token oracle is assumed sound for the tokens login mints: they are not
 * empty and `verify(sign(id, "30d")) == Some(id)`.
 */
module Sessions {
  import opened Wrappers
  import opened Domain
  import AuthMiddleware
  import AuthController
  import UserService

  /** After a successful login, the cookie it sets gets through the gate as the same user, flag cleared. */
  lemma {:induction false} LoginThenGateAdmits(username: string, password: string, users: seq<User>,
                                               compare: (string, string) -> bool,
                                               sign: (string, string) -> string, verify: string -> Option<string>)
    requires UniqueUserIds(users)
    requires AuthController.DecideLogin(username, password, users, compare).Authenticated?
    requires var id := AuthController.DecideLogin(username, password, users, compare).user.id;
      sign(id, AuthController.TokenLifetime) != "" && verify(sign(id, AuthController.TokenLifetime)) == Some(id)
    ensures var u := AuthController.DecideLogin(username, password, users, compare).user;
      AuthMiddleware.Decide(Some(sign(u.id, AuthController.TokenLifetime)), verify, SetPasswordChanged(users, u.id, false))
        == AuthMiddleware.Admitted(WithoutPassword(u.(hasPasswordChanged := false)))
  {
    var u := AuthController.DecideLogin(username, password, users, compare).user;
    FindByOwnId(users, u);
    FindAfterSetPasswordChanged(users, u.id, false);
  }

  /**
   * After an update that sets a new password, every token for that user is
   * turned away as stale, or as suspended when the account is inactive.
   */
  lemma StalesEverySession(id: string, d: UserService.UserUpdate, users: seq<User>, hash: string -> string,
                           jwt: string, verify: string -> Option<string>)
    requires UserService.Truthy(UserService.TrimmedNew(d))
    requires FindById(users, id).Some?
    requires jwt != "" && verify(jwt) == Some(id)
    ensures var after := UserService.UpdateById(users, id, UserService.WrittenPatch(d, hash));
      AuthMiddleware.Decide(Some(jwt), verify, after) in {AuthMiddleware.Suspended, AuthMiddleware.Stale}
  {
    UserService.FindAfterUpdate(users, id, UserService.WrittenPatch(d, hash));
  }

  /**
   * The expiry marker is one flag per user, not per token: any later login of
   * that user clears it, and from then on every older token for the user is
   * admitted again (provided the account is active).
   */
  lemma LoginRevivesOlderTokens(users: seq<User>, u: User, jwt: string, verify: string -> Option<string>)
    requires UniqueUserIds(users) && u in users && u.isActive
    requires jwt != "" && verify(jwt) == Some(u.id)
    ensures AuthMiddleware.Decide(Some(jwt), verify, SetPasswordChanged(users, u.id, false))
         == AuthMiddleware.Admitted(WithoutPassword(u.(hasPasswordChanged := false)))
  {
    FindByOwnId(users, u);
    FindAfterSetPasswordChanged(users, u.id, false);
  }
}
