/**
 * The operations table of one board: a row for adding an operation, in-place
 * editing and deletion of rows, and the pagination bar. Sorting and the page
 * itself belong to the board's page and come in as inputs.
 */
module Board {
  import opened Wrappers
  import opened Http
  import opened Table
  import opened DecimalInput

  datatype OperationType = Expense | Income

  datatype BoardInfo = BoardInfo(id: int, operationType: OperationType)

  datatype CategoryRef = CategoryRef(id: int, name: string)

  /** An operation as listed; the comment and the category may be absent. */
  datatype Operation = Operation(id: int, amount: real, comment: Option<string>,
                                 category: Option<CategoryRef>, date: string)

  /** The add row's values; `date` is "" until a day is picked, `categoryId` 0 until one is chosen. */
  datatype OperationDraft = OperationDraft(date: string, categoryId: int, comment: string,
                                           amount: real, operationType: OperationType)

  /** The draft an add row is reset to after a create: always an expense. */
  const ResetDraft := OperationDraft("", 0, "", 0.0, Expense)

  datatype DraftErrors = DraftErrors(amount: bool, categoryId: bool)

  /** A negative amount and a missing category (id 0) are errors; an amount of 0 is allowed. */
  function ValidateOperation(d: OperationDraft): (e: DraftErrors)
    ensures e.amount <==> d.amount < 0.0
    ensures e.categoryId <==> d.categoryId == 0
    ensures !e.amount && !e.categoryId <==> d.amount >= 0.0 && d.categoryId != 0
  {
    DraftErrors(d.amount < 0.0, d.categoryId == 0)
  }

  /** The body of `POST /operations/create`; an absent `date` is left out of the JSON. */
  datatype CreatePayload = CreatePayload(boardId: int, categoryId: int, comment: string, amount: real,
                                         operationType: OperationType, date: Option<string>)

  /** The create body: the board's id, the draft's values, and no date while none is picked. */
  function CreatePayloadFor(board: BoardInfo, d: OperationDraft): (p: CreatePayload)
    ensures p.boardId == board.id && p.operationType == d.operationType
    ensures p.categoryId == d.categoryId && p.comment == d.comment && p.amount == d.amount
    ensures p.date.None? <==> d.date == ""
    ensures p.date.Some? ==> p.date.value == d.date
  {
    CreatePayload(board.id, d.categoryId, d.comment, d.amount, d.operationType,
                  if d.date == "" then None else Some(d.date))
  }

  /** The edit row's values. */
  datatype EditValues = EditValues(amount: real, categoryId: int, comment: string, date: Option<string>)

  /** `handleEdit(op)`: the row's amount and date, its category id or 0, its comment or "". */
  function EditFrom(op: Operation): (e: EditValues)
    ensures e.amount == op.amount && e.date == Some(op.date)
    ensures op.category.Some? ==> e.categoryId == op.category.value.id
    ensures op.category.None? ==> e.categoryId == 0
    ensures op.comment.Some? ==> e.comment == op.comment.value
    ensures op.comment.None? ==> e.comment == ""
  {
    EditValues(op.amount, if op.category.Some? then op.category.value.id else 0,
               op.comment.GetOr(""), Some(op.date))
  }

  /** The body of `PUT /operations/{id}`. */
  datatype SavePayload = SavePayload(boardId: int, operationType: OperationType, amount: real,
                                     categoryId: int, comment: string, date: Option<string>)

  /** The save body: the board's id and type, never edited ones, and the edited values. */
  function SavePayloadFor(board: BoardInfo, e: EditValues): (p: SavePayload)
    ensures p.boardId == board.id && p.operationType == board.operationType
    ensures p.amount == e.amount && p.categoryId == e.categoryId && p.comment == e.comment && p.date == e.date
  {
    SavePayload(board.id, board.operationType, e.amount, e.categoryId, e.comment, e.date)
  }

  datatype Request =
    | CreateOperation(create: CreatePayload)
    | UpdateOperation(id: int, update: SavePayload)
    | DeleteOperation(id: int)

  /** A snapshot of every field of the table, used to say which fields a handler leaves alone. */
  datatype ViewState = ViewState(adding: bool, draft: OperationDraft, errors: DraftErrors,
                                 editingId: Option<int>, editing: EditValues, sent: seq<Request>, refetches: nat)

  class BoardView {
    const board: BoardInfo
    var adding: bool
    var draft: OperationDraft
    var errors: DraftErrors
    var editingId: Option<int>
    var editing: EditValues
    /** Every request sent, in order. */
    var sent: seq<Request>
    /** How many times the board's page was asked to fetch its operations again. */
    var refetches: nat

    ghost function State(): ViewState
      reads this
    {
      ViewState(adding, draft, errors, editingId, editing, sent, refetches)
    }

    /** The add row starts empty, with the board's own operation type. */
    constructor (board: BoardInfo)
      ensures this.board == board
      ensures !adding && draft == OperationDraft("", 0, "", 0.0, board.operationType)
      ensures errors == DraftErrors(false, false) && editingId.None?
      ensures sent == [] && refetches == 0
    {
      this.board := board;
      adding := false;
      draft := OperationDraft("", 0, "", 0.0, board.operationType);
      errors := DraftErrors(false, false);
      editingId := None;
      editing := EditValues(0.0, 0, "", None);
      sent := [];
      refetches := 0;
    }

    method OpenAddRow()
      modifies this
      ensures adding && draft == old(draft)
      ensures sent == old(sent) && refetches == old(refetches) && editingId == old(editingId)
      ensures State() == old(State()).(adding := adding)
    {
      adding := true;
    }

    /** Choosing a category in the add row's select. */
    method SelectCategory(categoryId: int)
      modifies this
      ensures draft == old(draft).(categoryId := categoryId)
      ensures adding == old(adding) && sent == old(sent) && refetches == old(refetches)
      ensures State() == old(State()).(draft := draft)
    {
      draft := draft.(categoryId := categoryId);
    }

    /** A keystroke in the draft amount; `parsed` is `Number(value)`. */
    method AmountInput(value: string, parsed: real)
      modifies this
      ensures AmountKeystroke(value).Rejected? ==> draft == old(draft)
      ensures AmountKeystroke(value).Zero? ==> draft == old(draft).(amount := 0.0)
      ensures AmountKeystroke(value).Parse? ==> draft == old(draft).(amount := parsed)
      ensures State() == old(State()).(draft := draft)
    {
      var edit := AmountKeystroke(value);
      if edit.Zero? {
        draft := draft.(amount := 0.0);
      } else if edit.Parse? {
        draft := draft.(amount := parsed);
      }
    }

    /**
     * `handleCreate`: the flags are recomputed; with a flag set nothing is
     * sent; otherwise the create body is sent and, unless the request
     * throws, the row closes and the draft resets to an empty expense,
     * whatever the board's type.
     */
    method HandleCreate(reply: Response<()>)
      modifies this
      ensures errors == ValidateOperation(old(draft))
      ensures errors.amount || errors.categoryId ==>
        sent == old(sent) && draft == old(draft) && adding == old(adding) && refetches == old(refetches)
      ensures !errors.amount && !errors.categoryId ==>
        sent == old(sent) + [CreateOperation(CreatePayloadFor(board, old(draft)))]
      ensures !errors.amount && !errors.categoryId && reply.Reply? ==>
        !adding && draft == ResetDraft && refetches == old(refetches) + 1
      ensures !errors.amount && !errors.categoryId && reply.NetworkError? ==>
        draft == old(draft) && adding == old(adding) && refetches == old(refetches)
      ensures editingId == old(editingId)
      ensures State() == old(State()).(errors := errors, sent := sent, adding := adding, draft := draft, refetches := refetches)
    {
      errors := ValidateOperation(draft);
      if errors.amount || errors.categoryId {
        return;
      }
      sent := sent + [CreateOperation(CreatePayloadFor(board, draft))];
      if reply.NetworkError? {
        return;
      }
      adding := false;
      draft := ResetDraft;
      refetches := refetches + 1;
    }

    /**
     * The pagination bar for the page, page count and operations the board's
     * page passes in: label 0 with no operations and page+1 otherwise,
     * "Минула" iff page > 0 and "Наступна" iff page+1 < totalPages, so the
     * page a shown button hands to `onPageChange` is never negative and
     * never past the count.
     */
    function Pager(page: int, totalPages: int, operations: seq<Operation>): (p: Table.Pager)
      ensures p.pageLabel == if operations == [] then 0 else page + 1
      ensures p.showPrev <==> page > 0
      ensures p.showNext <==> page + 1 < totalPages
      ensures p.showPrev ==> page - 1 >= 0
      ensures p.showNext && page >= 0 ==> 0 <= page + 1 < totalPages
    {
      Pagination(page, totalPages, |operations|)
    }

    /** `handleEdit(op)`: row `op` enters edit mode with its values. */
    method HandleEdit(op: Operation)
      modifies this
      ensures editingId == Some(op.id) && editing == EditFrom(op)
      ensures sent == old(sent) && draft == old(draft)
      ensures State() == old(State()).(editingId := editingId, editing := editing)
    {
      editingId := Some(op.id);
      editing := EditFrom(op);
    }

    /** `handleSave(id)`: the save body is sent; unless the request throws, edit mode ends and the list is fetched again. */
    method HandleSave(id: int, reply: Response<()>)
      modifies this
      ensures sent == old(sent) + [UpdateOperation(id, SavePayloadFor(board, old(editing)))]
      ensures reply.Reply? ==> editingId.None? && refetches == old(refetches) + 1
      ensures reply.NetworkError? ==> editingId == old(editingId) && refetches == old(refetches)
      ensures editing == old(editing) && draft == old(draft)
      ensures State() == old(State()).(sent := sent, editingId := editingId, refetches := refetches)
    {
      sent := sent + [UpdateOperation(id, SavePayloadFor(board, editing))];
      if reply.Reply? {
        editingId := None;
        refetches := refetches + 1;
      }
    }

    /** `handleDelete(id)`: the delete is sent and, unless it throws, the list is fetched again. */
    method HandleDelete(id: int, reply: Response<()>)
      modifies this
      ensures sent == old(sent) + [DeleteOperation(id)]
      ensures refetches == old(refetches) + (if reply.Reply? then 1 else 0)
      ensures draft == old(draft) && editingId == old(editingId)
      ensures State() == old(State()).(sent := sent, refetches := refetches)
    {
      sent := sent + [DeleteOperation(id)];
      if reply.Reply? {
        refetches := refetches + 1;
      }
    }
  }

  /**
   * On an income board the first create sends an income operation, but the
   * reset draft is an expense, so a second create from the same row sends
   * an expense to the income board.
   */
  method SecondCreateOnIncomeBoard(categoryId: int) returns (first: OperationType, second: OperationType)
    requires categoryId != 0
    ensures first == Income && second == Expense
  {
    var view := new BoardView(BoardInfo(1, Income));
    view.OpenAddRow();
    view.SelectCategory(categoryId);
    view.HandleCreate(Reply(Created, ()));
    assert view.sent == [CreateOperation(CreatePayloadFor(view.board, OperationDraft("", categoryId, "", 0.0, Income)))];
    view.OpenAddRow();
    view.SelectCategory(categoryId);
    view.HandleCreate(Reply(Created, ()));
    assert |view.sent| == 2 && view.sent[1] == CreateOperation(CreatePayloadFor(view.board, OperationDraft("", categoryId, "", 0.0, Expense)));
    first := view.sent[0].create.operationType;
    second := view.sent[1].create.operationType;
  }

}
