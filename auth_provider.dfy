/**
 * The session context (`AuthProvider`): a login status that is unknown,
 * true or false, and the current user. A check first marks the status
 * unknown, then asks `/users/me` once and stores the user only when the
 * reply is a 200 with a body; every other outcome clears the user and
 * sets the status to false. `isAdmin` is derived from the stored user.
 */
module AuthProvider {
  import opened Wrappers
  import opened Http

  datatype User = User(id: int, username: string, role: string)

  /**
   * `fetchUser`: the user is the body of a 200 reply whose body is present;
   * any other status (403, 204, ...), a missing body or a thrown request
   * gives no user, so the check fails closed.
   */
  function FetchUser(me: Response<Option<User>>): (u: Option<User>)
    ensures u.Some? <==> me.Reply? && me.status == 200 && me.body.Some?
    ensures u.Some? ==> u == me.body
  {
    match me
    case Reply(status, body) => if status == Ok then body else None
    case NetworkError => None
  }

  /** `isAdmin`: a user is present and its role is exactly "ADMIN". */
  function IsAdmin(user: Option<User>): (r: bool)
    ensures r <==> user.Some? && user.value.role == "ADMIN"
  {
    match user
    case Some(u) => u.role == "ADMIN"
    case None => false
  }

  class Provider {
    var isLoggedIn: Option<bool>
    var user: Option<User>
    /** True between sending `/users/me` and receiving its outcome. */
    var checking: bool
    /** Every request the provider has sent, in order. */
    var requests: seq<Endpoint>

    /** A known status agrees with the stored user; while checking the status is unknown. */
    ghost predicate Valid()
      reads this
    {
      (isLoggedIn.Some? ==> (isLoggedIn.value <==> user.Some?)) &&
      (checking ==> isLoggedIn.None?)
    }

    /** The provider mounts with an unknown status and no user. */
    constructor ()
      ensures Valid()
      ensures isLoggedIn.None? && user.None? && !checking && requests == []
    {
      isLoggedIn := None;
      user := None;
      checking := false;
      requests := [];
    }

    /** The first half of `checkAuth`: the status becomes unknown and `/users/me` is sent. */
    method StartCheck()
      requires Valid() && !checking
      modifies this
      ensures Valid() && checking
      ensures isLoggedIn.None? && user == old(user)
      ensures requests == old(requests) + [UsersMe]
    {
      isLoggedIn := None;
      checking := true;
      requests := requests + [UsersMe];
    }

    /** The second half: the outcome of `/users/me` decides both fields; nothing more is sent. */
    method FinishCheck(me: Response<Option<User>>)
      requires Valid() && checking
      modifies this
      ensures Valid() && !checking
      ensures user == FetchUser(me)
      ensures isLoggedIn == Some(user.Some?)
      ensures requests == old(requests)
    {
      var currentUser := FetchUser(me);
      if currentUser.Some? {
        user := currentUser;
        isLoggedIn := Some(true);
      } else {
        user := None;
        isLoggedIn := Some(false);
      }
      checking := false;
    }

    /**
     * A whole `checkAuth`: exactly one `/users/me` and never a refresh; the
     * status is true iff a user is stored, and a failed check leaves no
     * stale identity behind.
     */
    method CheckAuth(me: Response<Option<User>>)
      requires Valid() && !checking
      modifies this
      ensures Valid() && !checking
      ensures requests == old(requests) + [UsersMe]
      ensures user == FetchUser(me) && isLoggedIn == Some(user.Some?)
      ensures isLoggedIn == Some(false) ==> user.None?
    {
      StartCheck();
      FinishCheck(me);
    }
  }
}
