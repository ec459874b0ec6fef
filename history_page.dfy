/**
 * The audit-history page: a filtered, sorted, paginated list of history
 * entries, each shown with a message chosen by the kind of its body.
 */
module HistoryPage {
  import opened Wrappers
  import opened Http
  import opened Table
  import AccountsPage

  /**
   * A history body as the page receives it: a plain string (it has no
   * `type`), null (reading its `type` throws), or an object with the
   * fields the templates read.
   */
  datatype HistoryBody =
    | Text(text: string)
    | Null
    | Record(kind: Option<string>, username: string, operationType: Option<string>, board: string, category: string)

  /** The message chosen for a body. */
  datatype Message =
    | UserCreated(username: string)
    | PasswordChanged(username: string)
    | OperationCreated(opLabel: string, board: string, category: string)
    | OperationUpdated(opLabel: string, board: string, category: string)
    | OperationDeleted(opLabel: string, board: string, category: string)
    | Serialized(body: HistoryBody)   // `JSON.stringify(body)`
    | Raw(body: HistoryBody)          // the body itself, after a throw

  /** "Витрати" for an expense and "Доходи" for everything else, a missing type included. */
  function OperationLabel(operationType: Option<string>): (name: string)
    ensures name == "Витрати" <==> operationType == Some("EXPENSE")
    ensures name != "Витрати" ==> name == "Доходи"
  {
    if operationType == Some("EXPENSE") then "Витрати" else "Доходи"
  }

  predicate IsUserMessage(m: Message) {
    m.UserCreated? || m.PasswordChanged?
  }

  predicate IsOperationMessage(m: Message) {
    m.OperationCreated? || m.OperationUpdated? || m.OperationDeleted?
  }

  /**
   * `renderBodyMessage`: one of five templates by the body's `type`; any
   * other type (or none, as for a string body) gives the serialised body,
   * and a null body, whose `type` cannot be read, is returned as it is.
   * User templates carry only the login, operation templates only the
   * label, the board and the category.
   */
  function RenderBodyMessage(body: HistoryBody): (m: Message)
    ensures body.Null? <==> m.Raw?
    ensures m.Raw? ==> m.body == body
    ensures IsUserMessage(m) ==> body.Record? && m.username == body.username
    ensures m.UserCreated? <==> body.Record? && body.kind == Some("USER_CREATED")
    ensures m.PasswordChanged? <==> body.Record? && body.kind == Some("USER_PASSWORD_CHANGED")
    ensures m.OperationCreated? <==> body.Record? && body.kind == Some("OPERATION_CREATED")
    ensures m.OperationUpdated? <==> body.Record? && body.kind == Some("OPERATION_UPDATED")
    ensures m.OperationDeleted? <==> body.Record? && body.kind == Some("OPERATION_DELETED")
    ensures IsOperationMessage(m) ==>
      (body.Record? && m.opLabel == OperationLabel(body.operationType) && m.board == body.board && m.category == body.category)
    ensures m.Serialized? ==> m.body == body && !body.Null?
  {
    match body
    case Null => Raw(body)
    case Text(_) => Serialized(body)
    case Record(kind, username, operationType, board, category) =>
      if kind == Some("USER_CREATED") then UserCreated(username)
      else if kind == Some("USER_PASSWORD_CHANGED") then PasswordChanged(username)
      else if kind == Some("OPERATION_CREATED") then OperationCreated(OperationLabel(operationType), board, category)
      else if kind == Some("OPERATION_UPDATED") then OperationUpdated(OperationLabel(operationType), board, category)
      else if kind == Some("OPERATION_DELETED") then OperationDeleted(OperationLabel(operationType), board, category)
      else Serialized(body)
  }

  /** A piece of the rendered message; `Strong` is shown in bold. */
  datatype Segment = Plain(text: string) | Strong(text: string)

  function StrongTexts(segments: seq<Segment>): seq<string> {
    if segments == [] then []
    else (if segments[0].Strong? then [segments[0].text] else []) + StrongTexts(segments[1..])
  }

  /**
   * The wording of the five templates: a user template puts the login in
   * bold between two fixed pieces, an operation template puts the label,
   * the board and the category in bold, each after a fixed piece.
   */
  function Segments(m: Message): (r: seq<Segment>)
    requires IsUserMessage(m) || IsOperationMessage(m)
    ensures IsUserMessage(m) ==> |r| == 3 && r[0].Plain? && r[1] == Strong(m.username) && r[2].Plain?
    ensures IsOperationMessage(m) ==>
      |r| == 6 && r[0] == Plain("Операція ") &&
      r[1] == Strong(m.opLabel) && r[2].Plain? && r[3] == Strong(m.board) && r[4] == Plain(" в категорії ") && r[5] == Strong(m.category)
  {
    match m
    case UserCreated(u) => [Plain("Користувач "), Strong(u), Plain(" створений")]
    case PasswordChanged(u) => [Plain("Пароль користувача "), Strong(u), Plain(" змінено")]
    case OperationCreated(l, b, c) =>
      [Plain("Операція "), Strong(l), Plain(" створена на дошці "), Strong(b), Plain(" в категорії "), Strong(c)]
    case OperationUpdated(l, b, c) =>
      [Plain("Операція "), Strong(l), Plain(" оновлена на дошці "), Strong(b), Plain(" в категорії "), Strong(c)]
    case OperationDeleted(l, b, c) =>
      [Plain("Операція "), Strong(l), Plain(" видалена на дошці "), Strong(b), Plain(" в категорії "), Strong(c)]
  }

  lemma {:induction false} StrongTextsAppend(a: seq<Segment>, b: seq<Segment>)
    ensures StrongTexts(a + b) == StrongTexts(a) + StrongTexts(b)
    decreases |a|
  {
    if a == [] {
      assert a + b == b;
    } else {
      assert (a + b)[1..] == a[1..] + b;
      StrongTextsAppend(a[1..], b);
    }
  }

  /** In every template the bold parts are exactly the message's data, in order. */
  lemma TemplateEmphasis(m: Message)
    requires IsUserMessage(m) || IsOperationMessage(m)
    ensures IsUserMessage(m) ==> StrongTexts(Segments(m)) == [m.username]
    ensures IsOperationMessage(m) ==> StrongTexts(Segments(m)) == [m.opLabel, m.board, m.category]
  {
    var r := Segments(m);
    if IsUserMessage(m) {
      UserTemplateEmphasis(r[0].text, r[1].text, r[2].text);
    } else {
      OperationTemplateEmphasis(r[0].text, r[1].text, r[2].text, r[3].text, r[4].text, r[5].text);
    }
  }

  lemma UserTemplateEmphasis(p: string, u: string, q: string)
    ensures StrongTexts([Plain(p), Strong(u), Plain(q)]) == [u]
  {
    var r := [Plain(p), Strong(u), Plain(q)];
    assert r == [r[0]] + [r[1]] + [r[2]];
    StrongTextsAppend([r[0]] + [r[1]], [r[2]]);
    StrongTextsAppend([r[0]], [r[1]]);
  }

  lemma OperationTemplateEmphasis(p: string, l: string, q: string, b: string, t: string, c: string)
    ensures StrongTexts([Plain(p), Strong(l), Plain(q), Strong(b), Plain(t), Strong(c)]) == [l, b, c]
  {
    var r := [Plain(p), Strong(l), Plain(q), Strong(b), Plain(t), Strong(c)];
    var front := [Plain(p), Strong(l), Plain(q)];
    var back := [Strong(b), Plain(t), Strong(c)];
    assert r == front + back;
    StrongTextsAppend(front, back);
    UserTemplateEmphasis(p, l, q);
    assert back == [back[0]] + ([back[1]] + [back[2]]);
    StrongTextsAppend([back[0]], [back[1]] + [back[2]]);
    StrongTextsAppend([back[1]], [back[2]]);
  }

  /** Two bodies of the same kind that agree on the fields a template reads get the same message. */
  lemma TemplatesReadOnlyTheirFields(a: HistoryBody, b: HistoryBody)
    requires a.Record? && b.Record? && a.kind == b.kind
    requires IsUserMessage(RenderBodyMessage(a)) ==> a.username == b.username
    requires IsOperationMessage(RenderBodyMessage(a)) ==>
      OperationLabel(a.operationType) == OperationLabel(b.operationType) && a.board == b.board && a.category == b.category
    requires !IsUserMessage(RenderBodyMessage(a)) && !IsOperationMessage(RenderBodyMessage(a)) ==> a == b
    ensures RenderBodyMessage(a) == RenderBodyMessage(b)
  {
  }

  const PageSize := 15

  datatype HistoryQuery = HistoryQuery(username: Option<string>, kind: Option<string>,
                                       sortBy: string, direction: Direction, page: int, size: int)

  datatype Entry = Entry(id: int, username: string, kind: string, body: HistoryBody)

  datatype HistoriesReply = HistoriesReply(content: Option<seq<Entry>>, totalPages: Option<int>)

  /** A snapshot of every field of the page, used to say which fields a handler leaves alone. */
  datatype PageState = PageState(histories: Option<seq<Entry>>, username: string, kind: string, sort: Sort,
                                 page: int, totalPages: Option<int>)

  class Page {
    var histories: Option<seq<Entry>>
    var username: string
    var kind: string
    var sort: Sort
    var page: int
    var totalPages: Option<int>

    ghost function State(): PageState
      reads this
    {
      PageState(histories, username, kind, sort, page, totalPages)
    }

    /** The first page of all entries, newest first, 15 a page. */
    constructor ()
      ensures histories == Some([]) && username == "" && kind == ""
      ensures sort == Sort("date", Desc) && page == 0 && totalPages == Some(1)
    {
      histories := Some([]);
      username := "";
      kind := "";
      sort := Sort("date", Desc);
      page := 0;
      totalPages := Some(1);
    }

    /** The query the list is fetched with; an empty filter is left out. */
    function Query(): (q: HistoryQuery)
      reads this
      ensures q.username.None? <==> username == ""
      ensures q.kind.None? <==> kind == ""
      ensures q.username.Some? ==> q.username.value == username
      ensures q.kind.Some? ==> q.kind.value == kind
      ensures q.sortBy == sort.field && q.direction == sort.direction && q.page == page && q.size == 15
    {
      HistoryQuery(AccountsPage.Param(username), AccountsPage.Param(kind), sort.field, sort.direction, page, PageSize)
    }

    /** Typing a login filter; a change of value sends the list back to the first page. */
    method SetUsername(value: string)
      modifies this
      ensures username == value && kind == old(kind) && sort == old(sort)
      ensures page == if value != old(username) then 0 else old(page)
      ensures State() == old(State()).(username := username, page := page)
    {
      if value != username {
        page := 0;
      }
      username := value;
    }

    /** Choosing a type filter; a change of value sends the list back to the first page. */
    method SetKind(value: string)
      modifies this
      ensures kind == value && username == old(username) && sort == old(sort)
      ensures page == if value != old(kind) then 0 else old(page)
      ensures State() == old(State()).(kind := kind, page := page)
    {
      if value != kind {
        page := 0;
      }
      kind := value;
    }

    /** `handleSort(field)`: the sort toggles and the page is kept. */
    method HandleSort(field: string)
      modifies this
      ensures sort == NextSort(old(sort), field)
      ensures page == old(page) && username == old(username) && kind == old(kind)
      ensures State() == old(State()).(sort := sort)
    {
      sort := NextSort(sort, field);
    }

    /** The list reply is taken whatever its status. */
    method OnHistoriesReply(reply: Response<HistoriesReply>)
      modifies this
      ensures reply.Reply? ==> histories == reply.body.content && totalPages == reply.body.totalPages
      ensures reply.NetworkError? ==> histories == old(histories) && totalPages == old(totalPages)
      ensures page == old(page) && sort == old(sort)
      ensures State() == old(State()).(histories := histories, totalPages := totalPages)
    {
      if reply.Reply? {
        histories := reply.body.content;
        totalPages := reply.body.totalPages;
      }
    }

    /**
     * The pagination bar, drawn once the list has rows to map over: label 0
     * for an empty list and page+1 otherwise, "Минула" iff page > 0 and
     * "Наступна" iff page+1 < totalPages; a shown button's click is always
     * one `PreviousPage` or `NextPage` accepts.
     */
    function Pager(): (p: Table.Pager)
      requires histories.Some? && totalPages.Some?
      reads this
      ensures p.pageLabel == if histories.value == [] then 0 else page + 1
      ensures p.showPrev <==> page > 0
      ensures p.showNext <==> page + 1 < totalPages.value
      ensures p.total == totalPages.value
    {
      Pagination(page, totalPages.value, |histories.value|)
    }

    /** "Минула", shown only on a page after the first. */
    method PreviousPage()
      requires page > 0
      modifies this
      ensures page == old(page) - 1 && page >= 0
      ensures username == old(username) && kind == old(kind) && sort == old(sort)
      ensures State() == old(State()).(page := page)
    {
      page := page - 1;
    }

    /** "Наступна", shown only before the last page. */
    method NextPage()
      requires totalPages.Some? && page + 1 < totalPages.value
      modifies this
      ensures totalPages == old(totalPages) && page == old(page) + 1 && page < totalPages.value
      ensures username == old(username) && kind == old(kind) && sort == old(sort)
      ensures State() == old(State()).(page := page)
    {
      page := page + 1;
    }
  }

}
