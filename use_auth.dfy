/**
 * The alternate session hook (hooks/useAuth): one `/users/me` request and,
 * when that does not answer 200, exactly one `/auth/refresh`. The status
 * is not reset before a re-check, so the previous value stays visible
 * until the check resolves.
 */
module UseAuth {
  import opened Wrappers
  import opened Http

  /** Where a running check is suspended. */
  datatype Stage = Idle | AwaitingMe | AwaitingRefresh

  /**
   * The status a whole check settles on: true after a 200 from `/users/me`,
   * or after a non-200 from it followed by a 200 from the refresh. A thrown
   * request at either step, and any other refresh status (204 included),
   * give false.
   */
  function Outcome(me: Response<()>, refresh: Response<()>): (r: bool)
    ensures IsOk(me) ==> r
    ensures me.NetworkError? ==> !r
    ensures me.Reply? && me.status != 200 ==> (r <==> refresh.Reply? && refresh.status == 200)
  {
    match me
    case NetworkError => false
    case Reply(status, _) => status == Ok || IsOk(refresh)
  }

  /**
   * The requests a whole check sends: `/users/me` first, then a refresh
   * exactly when `/users/me` replied with another status than 200;
   * `/users/me` is never sent again, so a check sends at most two requests.
   */
  function Requests(me: Response<()>): (r: seq<Endpoint>)
    ensures 1 <= |r| <= 2 && r[0] == UsersMe && UsersMe !in r[1..]
    ensures |r| == 2 <==> me.Reply? && me.status != 200
    ensures |r| == 2 ==> r[1] == AuthRefresh
  {
    if me.Reply? && me.status != Ok then [UsersMe, AuthRefresh] else [UsersMe]
  }

  class Hook {
    var isLoggedIn: Option<bool>
    var stage: Stage
    /** Every request the hook has sent, in order. */
    var requests: seq<Endpoint>

    /** A suspended check is waiting on the last request it sent, and a refresh always follows `/users/me`. */
    ghost predicate Valid()
      reads this
    {
      (stage == AwaitingMe ==> |requests| >= 1 && requests[|requests| - 1] == UsersMe) &&
      (stage == AwaitingRefresh ==>
        |requests| >= 2 && requests[|requests| - 2] == UsersMe && requests[|requests| - 1] == AuthRefresh)
    }

    /** The hook starts with an unknown status. */
    constructor ()
      ensures Valid()
      ensures isLoggedIn.None? && stage == Idle && requests == []
    {
      isLoggedIn := None;
      stage := Idle;
      requests := [];
    }

    /** `checkAuth` begins: `/users/me` is sent and the status is left as it was. */
    method Start()
      requires Valid() && stage == Idle
      modifies this
      ensures Valid() && stage == AwaitingMe
      ensures isLoggedIn == old(isLoggedIn)
      ensures requests == old(requests) + [UsersMe]
    {
      stage := AwaitingMe;
      requests := requests + [UsersMe];
    }

    /** The outcome of `/users/me`: a 200 settles true, a throw settles false, anything else sends the refresh. */
    method OnMe(me: Response<()>)
      requires Valid() && stage == AwaitingMe
      modifies this
      ensures Valid()
      ensures me.NetworkError? ==> isLoggedIn == Some(false) && stage == Idle && requests == old(requests)
      ensures IsOk(me) ==> isLoggedIn == Some(true) && stage == Idle && requests == old(requests)
      ensures me.Reply? && me.status != 200 ==>
        isLoggedIn == old(isLoggedIn) && stage == AwaitingRefresh && requests == old(requests) + [AuthRefresh]
    {
      if me.NetworkError? {
        isLoggedIn := Some(false);
        stage := Idle;
        return;
      }
      if me.status == Ok {
        isLoggedIn := Some(true);
        stage := Idle;
        return;
      }
      requests := requests + [AuthRefresh];
      stage := AwaitingRefresh;
    }

    /** The outcome of the refresh: true only for a 200; nothing more is sent. */
    method OnRefresh(refresh: Response<()>)
      requires Valid() && stage == AwaitingRefresh
      modifies this
      ensures Valid() && stage == Idle
      ensures isLoggedIn == Some(IsOk(refresh))
      ensures requests == old(requests)
    {
      if refresh.Reply? && refresh.status == Ok {
        isLoggedIn := Some(true);
      } else {
        isLoggedIn := Some(false);
      }
      stage := Idle;
    }

    /** A whole check: it settles on `Outcome` after sending exactly `Requests(me)`. */
    method CheckAuth(me: Response<()>, refresh: Response<()>)
      requires Valid() && stage == Idle
      modifies this
      ensures Valid() && stage == Idle
      ensures isLoggedIn == Some(Outcome(me, refresh))
      ensures requests == old(requests) + Requests(me)
    {
      Start();
      OnMe(me);
      if stage == AwaitingRefresh {
        OnRefresh(refresh);
      }
    }
  }
}
