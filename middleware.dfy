/**
 * `DisabledUserMiddleware` (accounts/middleware.py): on every request, a
 * logged-in user whose account is disabled is logged out and sent to the
 * login page; anyone else gets the response of the rest of the stack.
 */
module Middleware {
  import opened Wrappers
  import Accounts
  import Cart
  import Sessions

  /** What the middleware answers; `R` is whatever the rest of the stack would answer. */
  datatype Reply<R> = RedirectToLogin | Downstream(response: R)

  /**
   * `request.user`: the session's user when it names an existing account,
   * otherwise the anonymous user (None).
   */
  function RequestUser(authUserId: Option<nat>, users: map<nat, Accounts.User>): (u: Option<Accounts.User>)
    ensures u.Some? <==> authUserId.Some? && authUserId.value in users
    ensures u.Some? ==> u.value == users[authUserId.value]
  {
    if authUserId.Some? && authUserId.value in users then Some(users[authUserId.value]) else None
  }

  /** `request.user.is_authenticated and request.user.is_disabled`. */
  predicate Blocks(user: Option<Accounts.User>) {
    user.Some? && user.value.isDisabled
  }

  /**
   * One request through the middleware. `downstream` is the response the
   * rest of the stack gives when it is called; a blocked request is
   * answered without it, after flushing the session.
   */
  method Call<R>(session: Sessions.Session, users: map<nat, Accounts.User>, downstream: R) returns (r: Reply<R>)
    requires session.Valid()
    modifies session
    ensures session.Valid()
    ensures var user := RequestUser(old(session.authUserId), users);
      && (Blocks(user) <==> r == RedirectToLogin)
      && (Blocks(user) ==>
            session.authUserId == None && session.CartValue() == Cart.Empty && session.pendingRegistrationId == None)
      && (!Blocks(user) ==>
            && r == Downstream(downstream)
            && session.authUserId == old(session.authUserId)
            && session.CartValue() == old(session.CartValue())
            && session.pendingRegistrationId == old(session.pendingRegistrationId))
  {
    var user := RequestUser(session.authUserId, users);
    if user.Some? && user.value.isDisabled {
      session.Flush();
      return RedirectToLogin;
    }
    r := Downstream(downstream);
  }

  /** Anonymous requests always pass, whatever they ask for. */
  lemma AnonymousPasses(users: map<nat, Accounts.User>)
    ensures !Blocks(RequestUser(None, users))
  {
  }

  /** A request passes exactly when its user is anonymous or not disabled. */
  lemma BlocksExactlyDisabled(authUserId: Option<nat>, users: map<nat, Accounts.User>)
    ensures Blocks(RequestUser(authUserId, users)) <==>
      authUserId.Some? && authUserId.value in users && users[authUserId.value].isDisabled
  {
  }
}
