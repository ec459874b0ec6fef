/**
 * The administrator's accounts page: a filtered, sorted, paginated list of
 * users, with delete and change-password actions on ordinary users, each
 * confirmed in a dialog.
 */
module AccountsPage {
  import opened Wrappers
  import opened Http
  import opened Table
  import ChangePassword

  datatype Account = Account(id: int, username: string, role: string)

  /**
   * The delete and change-password icons appear only on rows whose role is
   * exactly "USER", so an administrator's row (or one with any other role,
   * in any other case) offers neither action.
   */
  function ShowsActions(a: Account): (r: bool)
    ensures r <==> a.role == "USER"
    ensures a.role == "ADMIN" || a.role == "user" ==> !r
  {
    a.role == "USER"
  }

  const PageSize := 25

  /** The query of `GET /users`; an absent filter is left out of the URL. */
  datatype UserQuery = UserQuery(username: Option<string>, role: Option<string>,
                                 sortBy: string, direction: Direction, page: int, size: int)

  /** `value || undefined`: the empty filter is omitted. */
  function Param(value: string): (p: Option<string>)
    ensures p.None? <==> value == ""
    ensures p.Some? ==> p.value == value
  {
    if value == "" then None else Some(value)
  }

  /** The page's slice of `/users`; either field may be missing from an error body. */
  datatype UsersReply = UsersReply(content: Option<seq<Account>>, totalPages: Option<int>)

  datatype Request =
    | DeleteUser(id: int)
    | ChangeUserPassword(id: int, password: string, confirmPassword: string)

  /** A snapshot of every field of the page, used to say which fields a handler leaves alone. */
  datatype PageState = PageState(users: Option<seq<Account>>, username: string, role: string, sort: Sort,
                                 page: int, totalPages: Option<int>, userId: Option<int>,
                                 deleteOpen: bool, passwordOpen: bool, sent: seq<Request>, refetches: nat)

  class Page {
    /** `None` stands for the `undefined` an error body leaves behind. */
    var users: Option<seq<Account>>
    var username: string
    var role: string
    var sort: Sort
    var page: int
    var totalPages: Option<int>
    var userId: Option<int>
    var deleteOpen: bool
    var passwordOpen: bool
    var sent: seq<Request>
    var refetches: nat

    ghost function State(): PageState
      reads this
    {
      PageState(users, username, role, sort, page, totalPages, userId, deleteOpen, passwordOpen, sent, refetches)
    }

    /** The first page of all users, by login ascending, 25 a page. */
    constructor ()
      ensures users == Some([]) && username == "" && role == ""
      ensures sort == Sort("username", Asc) && page == 0 && totalPages == Some(1)
      ensures userId.None? && !deleteOpen && !passwordOpen && sent == [] && refetches == 0
    {
      users := Some([]);
      username := "";
      role := "";
      sort := Sort("username", Asc);
      page := 0;
      totalPages := Some(1);
      userId := None;
      deleteOpen := false;
      passwordOpen := false;
      sent := [];
      refetches := 0;
    }

    /** The query the list is fetched with. */
    function Query(): (q: UserQuery)
      reads this
      ensures q.username.None? <==> username == ""
      ensures q.role.None? <==> role == ""
      ensures q.username.Some? ==> q.username.value == username
      ensures q.role.Some? ==> q.role.value == role
      ensures q.sortBy == sort.field && q.direction == sort.direction && q.page == page && q.size == 25
    {
      UserQuery(Param(username), Param(role), sort.field, sort.direction, page, PageSize)
    }

    /** Typing a login filter; a change of value sends the list back to the first page. */
    method SetUsername(value: string)
      modifies this
      ensures username == value && role == old(role) && sort == old(sort)
      ensures page == if value != old(username) then 0 else old(page)
      ensures State() == old(State()).(username := username, page := page)
    {
      if value != username {
        page := 0;
      }
      username := value;
    }

    /** Choosing a role filter; a change of value sends the list back to the first page. */
    method SetRole(value: string)
      modifies this
      ensures role == value && username == old(username) && sort == old(sort)
      ensures page == if value != old(role) then 0 else old(page)
      ensures State() == old(State()).(role := role, page := page)
    {
      if value != role {
        page := 0;
      }
      role := value;
    }

    /** `handleSort(field)`: the sort toggles; unlike the finances page, the page is kept. */
    method HandleSort(field: string)
      modifies this
      ensures sort == NextSort(old(sort), field)
      ensures page == old(page) && username == old(username) && role == old(role)
      ensures State() == old(State()).(sort := sort)
    {
      sort := NextSort(sort, field);
    }

    /** The list reply is taken whatever its status: the rows and the page count are replaced as they come. */
    method OnUsersReply(reply: Response<UsersReply>)
      modifies this
      ensures reply.Reply? ==> users == reply.body.content && totalPages == reply.body.totalPages
      ensures reply.NetworkError? ==> users == old(users) && totalPages == old(totalPages)
      ensures page == old(page) && sort == old(sort)
      ensures State() == old(State()).(users := users, totalPages := totalPages)
    {
      if reply.Reply? {
        users := reply.body.content;
        totalPages := reply.body.totalPages;
      }
    }

    /**
     * The pagination bar, drawn once the list has rows to map over: label 0
     * for an empty list and page+1 otherwise, "Минула" iff page > 0 and
     * "Наступна" iff page+1 < totalPages; a shown button's click is always
     * one `PreviousPage` or `NextPage` accepts.
     */
    function Pager(): (p: Table.Pager)
      requires users.Some? && totalPages.Some?
      reads this
      ensures p.pageLabel == if users.value == [] then 0 else page + 1
      ensures p.showPrev <==> page > 0
      ensures p.showNext <==> page + 1 < totalPages.value
      ensures p.total == totalPages.value
    {
      Pagination(page, totalPages.value, |users.value|)
    }

    /** "Минула", shown only on a page after the first. */
    method PreviousPage()
      requires page > 0
      modifies this
      ensures page == old(page) - 1 && page >= 0
      ensures username == old(username) && role == old(role) && sort == old(sort)
      ensures State() == old(State()).(page := page)
    {
      page := page - 1;
    }

    /** "Наступна", shown only before the last page. */
    method NextPage()
      requires totalPages.Some? && page + 1 < totalPages.value
      modifies this
      ensures totalPages == old(totalPages) && page == old(page) + 1 && page < totalPages.value
      ensures username == old(username) && role == old(role) && sort == old(sort)
      ensures State() == old(State()).(page := page)
    {
      page := page + 1;
    }

    /** The delete icon of a row, drawn only where `ShowsActions` holds, selects its user and opens the delete dialog. */
    method DeleteClick(row: Account)
      requires ShowsActions(row)
      modifies this
      ensures userId == Some(row.id) && deleteOpen && passwordOpen == old(passwordOpen)
      ensures sent == old(sent) && refetches == old(refetches)
      ensures State() == old(State()).(userId := userId, deleteOpen := deleteOpen)
    {
      userId := Some(row.id);
      deleteOpen := true;
    }

    /**
     * `handleConfirmDelete`: without a selected user nothing happens;
     * otherwise the delete is sent, the list is fetched again only on a 204,
     * and in every case the dialog closes and the selection clears.
     */
    method ConfirmDelete(reply: Response<()>)
      modifies this
      ensures old(userId).None? ==>
        sent == old(sent) && refetches == old(refetches) && deleteOpen == old(deleteOpen) && userId.None?
      ensures old(userId).Some? ==>
        sent == old(sent) + [DeleteUser(old(userId).value)] && !deleteOpen && userId.None? &&
        refetches == old(refetches) + (if HasStatus(reply, NoContent) then 1 else 0)
      ensures passwordOpen == old(passwordOpen)
      ensures State() == old(State()).(sent := sent, refetches := refetches, deleteOpen := deleteOpen, userId := userId)
    {
      if userId.None? {
        return;
      }
      sent := sent + [DeleteUser(userId.value)];
      if reply.Reply? && reply.status == NoContent {
        refetches := refetches + 1;
      }
      deleteOpen := false;
      userId := None;
    }

    /** The password icon of a row, drawn only where `ShowsActions` holds, selects its user and opens the password dialog. */
    method PasswordClick(row: Account)
      requires ShowsActions(row)
      modifies this
      ensures userId == Some(row.id) && passwordOpen && deleteOpen == old(deleteOpen)
      ensures sent == old(sent) && refetches == old(refetches)
      ensures State() == old(State()).(userId := userId, passwordOpen := passwordOpen)
    {
      userId := Some(row.id);
      passwordOpen := true;
    }

    /** `handlePasswordChange`: the same shape as the delete, with the confirmed pair sent. */
    method PasswordChange(password: string, confirmPassword: string, reply: Response<()>)
      modifies this
      ensures old(userId).None? ==>
        sent == old(sent) && refetches == old(refetches) && passwordOpen == old(passwordOpen) && userId.None?
      ensures old(userId).Some? ==>
        sent == old(sent) + [ChangeUserPassword(old(userId).value, password, confirmPassword)] &&
        !passwordOpen && userId.None? &&
        refetches == old(refetches) + (if HasStatus(reply, NoContent) then 1 else 0)
      ensures deleteOpen == old(deleteOpen)
      ensures State() == old(State()).(sent := sent, refetches := refetches, passwordOpen := passwordOpen, userId := userId)
    {
      if userId.None? {
        return;
      }
      sent := sent + [ChangeUserPassword(userId.value, password, confirmPassword)];
      if reply.Reply? && reply.status == NoContent {
        refetches := refetches + 1;
      }
      passwordOpen := false;
      userId := None;
    }

    /**
     * The password dialog's confirm button: the dialog's own rule decides
     * whether the page is called at all: with an error the dialog shows it
     * and keeps its fields, and the page is untouched; otherwise the dialog
     * clears and the pair goes to `PasswordChange`, which sends it when a
     * user is selected. So a password request is only ever sent with two
     * equal, non-empty fields.
     */
    method ConfirmPasswordDialog(dialog: ChangePassword.Modal, reply: Response<()>)
      modifies this, dialog
      ensures var e := ChangePassword.Validate(old(dialog.password), old(dialog.confirmPassword));
        e.Some? ==>
          dialog.error == e.value && dialog.password == old(dialog.password) &&
          dialog.confirmPassword == old(dialog.confirmPassword) &&
          sent == old(sent) && refetches == old(refetches) && passwordOpen == old(passwordOpen) && userId == old(userId)
      ensures var e := ChangePassword.Validate(old(dialog.password), old(dialog.confirmPassword));
        e.None? ==> dialog.error == "" && dialog.password == "" && dialog.confirmPassword == ""
      ensures var e := ChangePassword.Validate(old(dialog.password), old(dialog.confirmPassword));
        e.None? && old(userId).None? ==> sent == old(sent) && refetches == old(refetches) && userId.None?
      ensures var e := ChangePassword.Validate(old(dialog.password), old(dialog.confirmPassword));
        e.None? && old(userId).Some? ==>
          sent == old(sent) + [ChangeUserPassword(old(userId).value, old(dialog.password), old(dialog.confirmPassword))] &&
          !passwordOpen && userId.None? &&
          refetches == old(refetches) + (if HasStatus(reply, NoContent) then 1 else 0)
      ensures |sent| <= |old(sent)| + 1
      ensures |sent| == |old(sent)| + 1 ==>
        sent[|sent| - 1].ChangeUserPassword? &&
        sent[|sent| - 1].password != "" && sent[|sent| - 1].password == sent[|sent| - 1].confirmPassword
      ensures State() == old(State()).(sent := sent, refetches := refetches, passwordOpen := passwordOpen, userId := userId)
    {
      var confirmed := dialog.HandleConfirm();
      if confirmed.Some? {
        PasswordChange(confirmed.value.0, confirmed.value.1, reply);
      }
    }
  }

}
