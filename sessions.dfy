/**
 * The request session the cart accessor and the profile handlers share:
 * the signed-in user's identity (a copy of some columns of their row), the
 * session cart, and how many times `touch()` marked the session as changed.
 */
module Sessions {
  import opened Wrappers
  import opened JsValues

  datatype SessionUser = SessionUser(id: UserId, name: string, email: string, role: string, avatar: Option<string>)

  class Session {
    var user: Option<SessionUser>
    var cart: Value
    var touches: nat

    constructor (user: Option<SessionUser>, cart: Value)
      ensures this.user == user && this.cart == cart && touches == 0
    {
      this.user := user;
      this.cart := cart;
      touches := 0;
    }

    /** `req.session.touch()`: marks the session as modified. */
    method Touch()
      modifies this`touches
      ensures touches == old(touches) + 1
    {
      touches := touches + 1;
    }
  }

  /** `req.session.user.id` when there is a user, `undefined` otherwise. */
  function UserIdOf(user: Option<SessionUser>): UserId
  {
    if user.Some? then user.value.id else None
  }
}
