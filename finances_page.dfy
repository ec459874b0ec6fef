/**
 * An employee's finance periods: a sortable, paginated table of periods
 * (each a start and end date sent by the backend as `[year, month, day]`
 * arrays, and three amounts), a row for adding a period, in-place editing,
 * deletion, an expandable list of advances per period and a dialog that
 * adds an advance on a day inside some period.
 */
module FinancesPage {
  import opened Wrappers
  import opened Http
  import opened Text
  import opened Table
  import opened DecimalInput

  // ------------------------------------------------ formatBackendDate

  /** A date field as received: a JSON array of numbers, or something else (null, a string). */
  datatype BackendDate = NotArray | DateArray(parts: seq<int>)

  /** `String(x)` of an array element, which is "undefined" past the end. */
  function Part(parts: seq<int>, i: nat): string {
    if i < |parts| then IntToString(parts[i]) else "undefined"
  }

  function Pad2(s: string): string {
    PadStart(s, 2, '0')
  }

  /**
   * `formatBackendDate`: "" for a non-array, else year, month and day joined
   * by '-', month and day padded to two. Only a non-array gives the empty
   * text, and an array's text starts with its year written as is.
   */
  function FormatBackendDate(d: BackendDate): (r: string)
    ensures r == "" <==> d.NotArray?
    ensures d.DateArray? ==> IsPrefix(Part(d.parts, 0) + "-", r)
  {
    match d
    case NotArray => ""
    case DateArray(parts) =>
      var y, m, d := Part(parts, 0), Pad2(Part(parts, 1)), Pad2(Part(parts, 2));
      JoinedPrefix(y, m, d);
      y + "-" + m + "-" + d
  }

  /** The first index of `c` in `s`, or `|s|` when there is none. */
  function IndexOf(s: string, c: char): (i: nat)
    ensures i <= |s| && c !in s[..i]
    ensures i < |s| ==> s[i] == c
  {
    if s == [] then 0
    else if s[0] == c then 0
    else
      var i := 1 + IndexOf(s[1..], c);
      assert s[..i] == [s[0]] + s[1..][..i - 1];
      i
  }

  /** Reads "Y-M-D" back as three non-negative numbers, each a non-empty run of digits. */
  function ParseYmdText(s: string): Option<(nat, nat, nat)> {
    var i := IndexOf(s, '-');
    if i == |s| then None
    else
      var rest := s[i + 1..];
      var j := IndexOf(rest, '-');
      if j == |rest| then None
      else
        ParseParts(s[..i], rest[..j], rest[j + 1..])
  }

  /** The three pieces between the dashes, each read as a non-empty run of digits. */
  function ParseParts(y: string, m: string, d: string): Option<(nat, nat, nat)> {
    if y != [] && m != [] && d != [] && AllDigits(y) && AllDigits(m) && AllDigits(d) then
      Some((ParseDigits(y), ParseDigits(m), ParseDigits(d)))
    else None
  }

  /** A '-' after a run of digits is found right after the run, which splits the text back into its pieces. */
  lemma IndexAfterDigits(a: string, b: string)
    requires AllDigits(a)
    ensures IndexOf(a + "-" + b, '-') == |a|
    ensures (a + "-" + b)[..|a|] == a && (a + "-" + b)[|a| + 1..] == b
  {
    var s := a + "-" + b;
    assert s[|a|] == '-';
    assert forall k :: 0 <= k < |a| ==> s[k] == a[k];
  }

  /** Padding a digit string to two keeps it a digit string of the same value. */
  lemma Pad2Digits(s: string)
    requires s != [] && AllDigits(s)
    ensures Pad2(s) != [] && AllDigits(Pad2(s)) && ParseDigits(Pad2(s)) == ParseDigits(s)
    ensures |Pad2(s)| >= 2
  {
    if |s| < 2 {
      assert Pad2(s) == "0" + s;
      ParseLeadingZero(s);
    }
  }

  /** Three non-empty digit runs joined by '-' read back as their values. */
  lemma ParseJoined(y: string, m: string, d: string)
    requires y != [] && m != [] && d != [] && AllDigits(y) && AllDigits(m) && AllDigits(d)
    ensures ParseYmdText(y + "-" + m + "-" + d) == Some((ParseDigits(y), ParseDigits(m), ParseDigits(d)))
  {
    var rest := m + "-" + d;
    JoinAssoc(y, m, d);
    IndexAfterDigits(y, rest);
    IndexAfterDigits(m, d);
    ParseAtDashes(y + "-" + rest, |y|, |m|);
  }

  lemma JoinAssoc(y: string, m: string, d: string)
    ensures y + "-" + m + "-" + d == y + "-" + (m + "-" + d)
  {
  }

  /** The parse once both dashes are located. */
  lemma ParseAtDashes(s: string, i: nat, j: nat)
    requires IndexOf(s, '-') == i < |s|
    requires IndexOf(s[i + 1..], '-') == j < |s[i + 1..]|
    ensures ParseYmdText(s) == ParseParts(s[..i], s[i + 1..][..j], s[i + 1..][j + 1..])
  {
  }

  lemma FormatNatParts(year: nat, month: nat, day: nat)
    ensures FormatBackendDate(DateArray([year, month, day])) ==
      NatToString(year) + "-" + Pad2(NatToString(month)) + "-" + Pad2(NatToString(day))
  {
    var parts := [year, month, day];
    assert Part(parts, 0) == NatToString(year);
    assert Part(parts, 1) == NatToString(month);
    assert Part(parts, 2) == NatToString(day);
  }

  lemma JoinedPrefix(y: string, m: string, d: string)
    ensures IsPrefix(y + "-", y + "-" + m + "-" + d)
  {
    assert y + "-" + m + "-" + d == (y + "-") + (m + "-" + d);
  }

  /**
   * The formatted date of a complete array of non-negative numbers reads
   * back as the same three numbers, whatever their size, and starts with
   * the year written as is.
   */
  lemma FormatBackendDateRoundTrip(year: nat, month: nat, day: nat)
    ensures ParseYmdText(FormatBackendDate(DateArray([year, month, day]))) == Some((year, month, day))
    ensures IsPrefix(NatToString(year) + "-", FormatBackendDate(DateArray([year, month, day])))
  {
    var y, m, d := NatToString(year), Pad2(NatToString(month)), Pad2(NatToString(day));
    Pad2Digits(NatToString(month));
    Pad2Digits(NatToString(day));
    FormatNatParts(year, month, day);
    ParseJoined(y, m, d);
    JoinedPrefix(y, m, d);
    ParseNatToString(year);
    ParseNatToString(month);
    ParseNatToString(day);
  }

  /** Single digits are zero-padded, two digits are kept, the year is not padded. */
  lemma FormatBackendDateExample()
    ensures FormatBackendDate(DateArray([7, 11, 3])) == "7-11-03"
  {
    assert NatToString(11) == "11" by { assert NatToString(1) == "1"; }
    assert Pad2("11") == "11" && Pad2("3") == "03";
  }

  /** Missing elements read "undefined", never padded; a non-array gives "". */
  lemma FormatBackendDateMissingParts()
    ensures FormatBackendDate(DateArray([7])) == "7-undefined-undefined"
    ensures FormatBackendDate(NotArray) == ""
  {
    assert Pad2("undefined") == "undefined";
  }

  // ------------------------------------------------ isAdvanceDateValid

  /** A calendar day. */
  datatype Ymd = Ymd(year: int, month: int, day: int)

  /** Calendar order of days: by year, then month, then day. */
  predicate NotAfter(a: Ymd, b: Ymd) {
    a.year < b.year || (a.year == b.year && (a.month < b.month || (a.month == b.month && a.day <= b.day)))
  }

  /** A finance period as the page receives it; `advances` counts its advances. */
  datatype Finance = Finance(id: int, startDate: seq<int>, endDate: seq<int>,
                             incomeQFD: real, paidRef: real, percentQFD: real, advances: nat)

  /** The day a date array stands for; a short array gives no day (the source's NaN). */
  function ArrayDay(parts: seq<int>): Option<Ymd> {
    if |parts| >= 3 then Some(Ymd(parts[0], parts[1], parts[2])) else None
  }

  /** The period starts on or before `day` and ends on or after it. */
  predicate InPeriod(day: Ymd, f: Finance) {
    var start, end := ArrayDay(f.startDate), ArrayDay(f.endDate);
    start.Some? && end.Some? && NotAfter(start.value, day) && NotAfter(day, end.value)
  }

  /**
   * `isAdvanceDateValid`: no day (the empty date) is never valid; a day is
   * valid exactly when some period of the list contains it, both ends
   * included.
   */
  function IsAdvanceDateValid(date: Option<Ymd>, finances: seq<Finance>): (r: bool)
    ensures r <==> date.Some? && exists i :: 0 <= i < |finances| && InPeriod(date.value, finances[i])
  {
    if date.None? || finances == [] then false
    else if InPeriod(date.value, finances[0]) then true
    else
      var r := IsAdvanceDateValid(date, finances[1..]);
      assert forall i :: 1 <= i < |finances| ==> finances[i] == finances[1..][i - 1];
      r
  }

  /** The first and last day of a period where start is not after end are valid advance days. */
  lemma PeriodEndsAreValid(finances: seq<Finance>, i: nat)
    requires i < |finances|
    requires ArrayDay(finances[i].startDate).Some? && ArrayDay(finances[i].endDate).Some?
    requires NotAfter(ArrayDay(finances[i].startDate).value, ArrayDay(finances[i].endDate).value)
    ensures IsAdvanceDateValid(ArrayDay(finances[i].startDate), finances)
    ensures IsAdvanceDateValid(ArrayDay(finances[i].endDate), finances)
  {
    assert InPeriod(ArrayDay(finances[i].startDate).value, finances[i]);
    assert InPeriod(ArrayDay(finances[i].endDate).value, finances[i]);
  }

  // ------------------------------------------------------ the page

  /** The page's slice of `/employee-finances`. */
  datatype FinancesReply = FinancesReply(content: Option<seq<Finance>>, totalPages: Option<int>)

  /** `total_pages || 1`: a missing or zero count becomes 1, so the page count is never 0. */
  function TotalPagesFrom(total: Option<int>): (n: int)
    ensures n != 0
    ensures total.Some? && total.value != 0 ==> n == total.value
    ensures total.None? || total.value == 0 ==> n == 1
  {
    if total.Some? && total.value != 0 then total.value else 1
  }

  /** The add row's values; `employeeId` is the page's. */
  datatype FinanceDraft = FinanceDraft(startDate: string, endDate: string,
                                       incomeQFD: real, paidRef: real, percentQFD: real)

  const EmptyDraft := FinanceDraft("", "", 0.0, 0.0, 0.0)

  /** Which inputs of the add row are marked as wrong. */
  datatype CreateErrors = CreateErrors(startDate: bool, endDate: bool,
                                       incomeQFD: bool, paidRef: bool, percentQFD: bool)

  const NoErrors := CreateErrors(false, false, false, false, false)

  predicate AnyError(e: CreateErrors) {
    e.startDate || e.endDate || e.incomeQFD || e.paidRef || e.percentQFD
  }

  /** An empty date and a negative amount are errors; an amount of 0 is allowed. */
  function ValidateDraft(d: FinanceDraft): (e: CreateErrors)
    ensures e.startDate <==> d.startDate == ""
    ensures e.endDate <==> d.endDate == ""
    ensures e.incomeQFD <==> d.incomeQFD < 0.0
    ensures e.paidRef <==> d.paidRef < 0.0
    ensures e.percentQFD <==> d.percentQFD < 0.0
    ensures !AnyError(e) <==>
      (d.startDate != "" && d.endDate != "" && d.incomeQFD >= 0.0 && d.paidRef >= 0.0 && d.percentQFD >= 0.0)
  {
    CreateErrors(d.startDate == "", d.endDate == "", d.incomeQFD < 0.0, d.paidRef < 0.0, d.percentQFD < 0.0)
  }

  /** The values the edit row starts from and sends. */
  datatype FinanceEdit = FinanceEdit(startDate: string, endDate: string,
                                     incomeQFD: real, paidRef: real, percentQFD: real)

  /** A request the page sends that changes data on the server. */
  datatype Request =
    | CreateFinance(employeeId: int, draft: FinanceDraft)
    | UpdateFinance(id: int, edit: FinanceEdit)
    | DeleteFinance(id: int)
    | CreateAdvance(employeeId: int, amount: real, date: Ymd)
    | DeleteAdvance(id: int)

  /** The three amount inputs of the add row. */
  datatype AmountField = IncomeQFD | PaidRef | PercentQFD

  const AdvanceOutsidePeriods := "Обраний час не входить в період"

  /** `finances.filter(f => f.id !== id)`. */
  function WithoutId(finances: seq<Finance>, id: int): (r: seq<Finance>)
    ensures forall f :: f in r <==> f in finances && f.id != id
    ensures |r| <= |finances|
  {
    if finances == [] then []
    else if finances[0].id == id then WithoutId(finances[1..], id)
    else [finances[0]] + WithoutId(finances[1..], id)
  }

  /** A single row is kept exactly when its id differs. */
  lemma WithoutIdSingle(f: Finance, id: int)
    ensures WithoutId([f], id) == if f.id == id then [] else [f]
  {
    assert [f][1..] == [];
  }

  /**
   * Dropping rows distributes over concatenation, so the kept rows stay in
   * their order and each keeps its number of copies.
   */
  lemma {:induction false} WithoutIdAppend(a: seq<Finance>, b: seq<Finance>, id: int)
    ensures WithoutId(a + b, id) == WithoutId(a, id) + WithoutId(b, id)
    decreases |a|
  {
    if a == [] {
      assert a + b == b;
    } else {
      assert (a + b)[0] == a[0];
      assert (a + b)[1..] == a[1..] + b;
      WithoutIdAppend(a[1..], b, id);
    }
  }

  /** Rows whose ids all differ are kept as they are, in the same order. */
  lemma {:induction false} WithoutIdAbsent(finances: seq<Finance>, id: int)
    requires forall i :: 0 <= i < |finances| ==> finances[i].id != id
    ensures WithoutId(finances, id) == finances
    decreases |finances|
  {
    if finances != [] {
      WithoutIdAbsent(finances[1..], id);
      assert finances == [finances[0]] + finances[1..];
    }
  }

  /** A snapshot of every field of the page, used to say which fields a handler leaves alone. */
  datatype PageState = PageState(finances: seq<Finance>, openIndex: Option<int>, sort: Sort, page: int, totalPages: int,
                                 errors: CreateErrors, adding: bool, draft: FinanceDraft,
                                 editingId: Option<int>, editing: FinanceEdit,
                                 advanceOpen: bool, advanceAmount: real, advanceDate: Option<Ymd>,
                                 advanceDateError: Option<string>, sent: seq<Request>, refetches: nat)

  class Page {
    const employeeId: int
    var finances: seq<Finance>
    var openIndex: Option<int>
    var sort: Sort
    var page: int
    var totalPages: int
    var errors: CreateErrors
    var adding: bool
    var draft: FinanceDraft
    var editingId: Option<int>
    var editing: FinanceEdit
    var advanceOpen: bool
    var advanceAmount: real
    var advanceDate: Option<Ymd>
    var advanceDateError: Option<string>
    /** Every data-changing request sent, in order. */
    var sent: seq<Request>
    /** How many times the list has been asked for again. */
    var refetches: nat

    /**
     * The page count is never 0 and the current page is never negative. The
     * page may lie beyond the count, since a reply can shrink the count
     * without moving the page.
     */
    ghost predicate Valid()
      reads this
    {
      totalPages != 0 && 0 <= page
    }

    ghost function State(): PageState
      reads this
    {
      PageState(finances, openIndex, sort, page, totalPages, errors, adding, draft, editingId, editing,
                advanceOpen, advanceAmount, advanceDate, advanceDateError, sent, refetches)
    }

    /** The page's initial state: sorted by id, newest first, on page 0 of 1, with 15 rows a page. */
    constructor (employeeId: int)
      ensures Valid()
      ensures this.employeeId == employeeId
      ensures finances == [] && openIndex.None?
      ensures sort == Sort("id", Desc) && page == 0 && totalPages == 1
      ensures errors == NoErrors && !adding && draft == EmptyDraft && editingId.None?
      ensures !advanceOpen && advanceAmount == 0.0 && advanceDate.None? && advanceDateError.None?
      ensures sent == [] && refetches == 0
    {
      this.employeeId := employeeId;
      finances := [];
      openIndex := None;
      sort := Sort("id", Desc);
      page := 0;
      totalPages := 1;
      errors := NoErrors;
      adding := false;
      draft := EmptyDraft;
      editingId := None;
      editing := FinanceEdit("", "", 0.0, 0.0, 0.0);
      advanceOpen := false;
      advanceAmount := 0.0;
      advanceDate := None;
      advanceDateError := None;
      sent := [];
      refetches := 0;
    }

    /** `toggle(i)`: the advances of row `i` open, or close when they were the open ones. */
    method Toggle(i: int)
      requires Valid()
      modifies this
      ensures Valid()
      ensures old(openIndex) == Some(i) ==> openIndex.None?
      ensures old(openIndex) != Some(i) ==> openIndex == Some(i)
      ensures finances == old(finances) && sort == old(sort) && page == old(page)
      ensures State() == old(State()).(openIndex := openIndex)
    {
      if openIndex == Some(i) {
        openIndex := None;
      } else {
        openIndex := Some(i);
      }
    }

    /** `handleSort(field)`: the sort toggles and the page goes back to the first. */
    method HandleSort(field: string)
      requires Valid()
      modifies this
      ensures Valid()
      ensures sort == NextSort(old(sort), field) && page == 0
      ensures totalPages == old(totalPages) && finances == old(finances)
      ensures State() == old(State()).(sort := sort, page := page)
    {
      sort := NextSort(sort, field);
      page := 0;
    }

    /** `onPageChange(newPage)`: only a page within the count is taken. */
    method OnPageChange(newPage: int)
      requires Valid()
      modifies this
      ensures Valid()
      ensures page == PageChange(old(page), newPage, totalPages)
      ensures sort == old(sort) && totalPages == old(totalPages)
      ensures State() == old(State()).(page := page)
    {
      if 0 <= newPage < totalPages {
        page := newPage;
      }
    }

    /**
     * The pagination bar of the current state. A click on a shown "Наступна"
     * is always taken by `onPageChange`, and so is one on a shown "Минула"
     * unless the page count has dropped below the current page.
     */
    function Pager(): (p: Table.Pager)
      requires Valid()
      reads this
      ensures p.showPrev <==> page > 0
      ensures p.showNext <==> page + 1 < totalPages
      ensures p.pageLabel == if finances == [] then 0 else page + 1
      ensures p.showNext ==> PageChange(page, page + 1, totalPages) == page + 1
      ensures p.showPrev && page <= totalPages ==> PageChange(page, page - 1, totalPages) == page - 1
    {
      Pagination(page, totalPages, |finances|)
    }

    /** The reply to the list request: a 200 replaces the rows and the page count; anything else changes nothing. */
    method OnFinancesReply(reply: Response<FinancesReply>)
      requires Valid()
      modifies this
      ensures Valid()
      ensures IsOk(reply) ==> finances == reply.body.content.GetOr([]) && totalPages == TotalPagesFrom(reply.body.totalPages)
      ensures !IsOk(reply) ==> finances == old(finances) && totalPages == old(totalPages)
      ensures page == old(page) && sort == old(sort)
      ensures State() == old(State()).(finances := finances, totalPages := totalPages)
    {
      if reply.Reply? && reply.status == Ok {
        finances := reply.body.content.GetOr([]);
        totalPages := TotalPagesFrom(reply.body.totalPages);
      }
    }

    /**
     * `handleCreate`: the flags are always recomputed; with any flag set no
     * request is sent and the row stays open; otherwise the draft is sent,
     * and unless the request throws the row closes, the draft resets and the
     * list is fetched again.
     */
    method HandleCreate(reply: Response<()>)
      requires Valid()
      modifies this
      ensures Valid()
      ensures errors == ValidateDraft(old(draft))
      ensures AnyError(errors) ==> sent == old(sent) && adding == old(adding) && draft == old(draft) && refetches == old(refetches)
      ensures !AnyError(errors) ==> sent == old(sent) + [CreateFinance(employeeId, old(draft))]
      ensures !AnyError(errors) && reply.Reply? ==> !adding && draft == EmptyDraft && refetches == old(refetches) + 1
      ensures !AnyError(errors) && reply.NetworkError? ==> adding == old(adding) && draft == old(draft) && refetches == old(refetches)
      ensures finances == old(finances) && page == old(page) && totalPages == old(totalPages)
      ensures State() == old(State()).(errors := errors, sent := sent, adding := adding, draft := draft, refetches := refetches)
    {
      errors := ValidateDraft(draft);
      if AnyError(errors) {
        return;
      }
      sent := sent + [CreateFinance(employeeId, draft)];
      if reply.NetworkError? {
        return;
      }
      adding := false;
      draft := EmptyDraft;
      refetches := refetches + 1;
    }

    /** `handleEdit(f)`: row `f` enters edit mode with its dates formatted for the date pickers. */
    method HandleEdit(f: Finance)
      requires Valid()
      modifies this
      ensures Valid()
      ensures editingId == Some(f.id)
      ensures editing == FinanceEdit(FormatBackendDate(DateArray(f.startDate)), FormatBackendDate(DateArray(f.endDate)),
                                     f.incomeQFD, f.paidRef, f.percentQFD)
      ensures finances == old(finances) && sent == old(sent)
      ensures State() == old(State()).(editingId := editingId, editing := editing)
    {
      editingId := Some(f.id);
      editing := FinanceEdit(FormatBackendDate(DateArray(f.startDate)), FormatBackendDate(DateArray(f.endDate)),
                             f.incomeQFD, f.paidRef, f.percentQFD);
    }

    /** `handleSave(id)`: the edited values are sent; unless the request throws, edit mode ends and the list is fetched again. */
    method HandleSave(id: int, reply: Response<()>)
      requires Valid()
      modifies this
      ensures Valid()
      ensures sent == old(sent) + [UpdateFinance(id, old(editing))]
      ensures reply.Reply? ==> editingId.None? && refetches == old(refetches) + 1
      ensures reply.NetworkError? ==> editingId == old(editingId) && refetches == old(refetches)
      ensures editing == old(editing) && finances == old(finances)
      ensures State() == old(State()).(sent := sent, editingId := editingId, refetches := refetches)
    {
      sent := sent + [UpdateFinance(id, editing)];
      if reply.Reply? {
        editingId := None;
        refetches := refetches + 1;
      }
    }

    /** `handleDelete(id)`: unless the request throws, the row is dropped locally and the list is fetched again. */
    method HandleDelete(id: int, reply: Response<()>)
      requires Valid()
      modifies this
      ensures Valid()
      ensures sent == old(sent) + [DeleteFinance(id)]
      ensures reply.Reply? ==> finances == WithoutId(old(finances), id) && refetches == old(refetches) + 1
      ensures reply.NetworkError? ==> finances == old(finances) && refetches == old(refetches)
      ensures State() == old(State()).(sent := sent, finances := finances, refetches := refetches)
    {
      sent := sent + [DeleteFinance(id)];
      if reply.Reply? {
        refetches := refetches + 1;
        finances := WithoutId(finances, id);
      }
    }

    method OpenAdvanceDialog()
      requires Valid()
      modifies this
      ensures Valid()
      ensures advanceOpen
      ensures advanceAmount == old(advanceAmount) && advanceDate == old(advanceDate) && advanceDateError == old(advanceDateError)
      ensures State() == old(State()).(advanceOpen := advanceOpen)
    {
      advanceOpen := true;
    }

    /** A keystroke in the advance amount; `parsed` is `Number(value)`. */
    method AdvanceAmountInput(value: string, parsed: real)
      requires Valid()
      modifies this
      ensures Valid()
      ensures AmountKeystroke(value).Rejected? ==> advanceAmount == old(advanceAmount)
      ensures AmountKeystroke(value).Zero? ==> advanceAmount == 0.0
      ensures AmountKeystroke(value).Parse? ==> advanceAmount == parsed
      ensures advanceDate == old(advanceDate) && advanceDateError == old(advanceDateError)
      ensures State() == old(State()).(advanceAmount := advanceAmount)
    {
      var edit := AmountKeystroke(value);
      if edit.Zero? {
        advanceAmount := 0.0;
      } else if edit.Parse? {
        advanceAmount := parsed;
      }
    }

    /** Picking (or clearing) the advance day: a picked day outside every period shows the error, anything else clears it. */
    method AdvanceDateChange(date: Option<Ymd>)
      requires Valid()
      modifies this
      ensures Valid()
      ensures advanceDate == date
      ensures advanceDateError.Some? <==> date.Some? && !IsAdvanceDateValid(date, finances)
      ensures advanceDateError.Some? ==> advanceDateError.value == AdvanceOutsidePeriods
      ensures finances == old(finances) && advanceAmount == old(advanceAmount)
      ensures State() == old(State()).(advanceDate := advanceDate, advanceDateError := advanceDateError)
    {
      advanceDate := date;
      if date.Some? && !IsAdvanceDateValid(date, finances) {
        advanceDateError := Some(AdvanceOutsidePeriods);
      } else {
        advanceDateError := None;
      }
    }

    /**
     * `submitAdvance`: without a day, or with the error shown, nothing
     * happens and the dialog stays; otherwise the advance is sent, its
     * fields reset unless the request throws, and the dialog closes either way.
     */
    method SubmitAdvance(reply: Response<()>)
      requires Valid()
      modifies this
      ensures Valid()
      ensures old(advanceDate).None? || old(advanceDateError).Some? ==>
        sent == old(sent) && advanceOpen == old(advanceOpen) && advanceDate == old(advanceDate) &&
        advanceAmount == old(advanceAmount) && refetches == old(refetches)
      ensures old(advanceDate).Some? && old(advanceDateError).None? ==>
        sent == old(sent) + [CreateAdvance(employeeId, old(advanceAmount), old(advanceDate).value)] && !advanceOpen
      ensures old(advanceDate).Some? && old(advanceDateError).None? && reply.Reply? ==>
        advanceAmount == 0.0 && advanceDate.None? && advanceDateError.None? && refetches == old(refetches) + 1
      ensures old(advanceDate).Some? && old(advanceDateError).None? && reply.NetworkError? ==>
        advanceAmount == old(advanceAmount) && advanceDate == old(advanceDate) && refetches == old(refetches)
      ensures advanceDateError.Some? ==> advanceDateError == old(advanceDateError)
      ensures State() == old(State()).(sent := sent, advanceOpen := advanceOpen, advanceAmount := advanceAmount,
                                      advanceDate := advanceDate, advanceDateError := advanceDateError, refetches := refetches)
    {
      if advanceDate.None? || advanceDateError.Some? {
        return;
      }
      sent := sent + [CreateAdvance(employeeId, advanceAmount, advanceDate.value)];
      if reply.Reply? {
        refetches := refetches + 1;
        advanceAmount := 0.0;
        advanceDate := None;
        advanceDateError := None;
      }
      advanceOpen := false;
    }

    /** The "+" button opens the add row and its cancel button closes it; nothing else changes. */
    method SetAdding(open: bool)
      requires Valid()
      modifies this
      ensures Valid()
      ensures adding == open
      ensures draft == old(draft) && errors == old(errors) && sent == old(sent)
      ensures State() == old(State()).(adding := adding)
    {
      adding := open;
    }

    /**
     * A keystroke in one amount input of the add row: a text outside the
     * decimal shape is ignored, the empty text sets 0, any other sets
     * `parsed` (`Number(value)`); the other inputs keep their values.
     */
    method DraftAmountInput(field: AmountField, value: string, parsed: real)
      requires Valid()
      modifies this
      ensures Valid()
      ensures var amount := match AmountKeystroke(value)
          case Rejected => None
          case Zero => Some(0.0)
          case Parse(_) => Some(parsed);
        draft == (if amount.None? then old(draft)
                  else match field
                    case IncomeQFD => old(draft).(incomeQFD := amount.value)
                    case PaidRef => old(draft).(paidRef := amount.value)
                    case PercentQFD => old(draft).(percentQFD := amount.value))
      ensures AmountKeystroke(value).Rejected? ==> draft == old(draft)
      ensures draft.startDate == old(draft).startDate && draft.endDate == old(draft).endDate
      ensures errors == old(errors) && sent == old(sent)
      ensures State() == old(State()).(draft := draft)
    {
      var edit := AmountKeystroke(value);
      if edit.Rejected? {
        return;
      }
      var amount := if edit.Zero? then 0.0 else parsed;
      match field
      case IncomeQFD => draft := draft.(incomeQFD := amount);
      case PaidRef => draft := draft.(paidRef := amount);
      case PercentQFD => draft := draft.(percentQFD := amount);
    }

    /**
     * A date picker of the add row: a picked day is stored as its
     * "YYYY-MM-DD" text (formatted by the caller), a cleared picker stores
     * "", which `ValidateDraft` then flags.
     */
    method DraftDateChange(isStart: bool, picked: Option<string>)
      requires Valid()
      modifies this
      ensures Valid()
      ensures isStart ==> draft == old(draft).(startDate := picked.GetOr(""))
      ensures !isStart ==> draft == old(draft).(endDate := picked.GetOr(""))
      ensures picked.None? ==> (if isStart then ValidateDraft(draft).startDate else ValidateDraft(draft).endDate)
      ensures errors == old(errors) && sent == old(sent)
      ensures State() == old(State()).(draft := draft)
    {
      if isStart {
        draft := draft.(startDate := picked.GetOr(""));
      } else {
        draft := draft.(endDate := picked.GetOr(""));
      }
    }

    /** The edit row's cancel button leaves edit mode without sending anything. */
    method CancelEdit()
      requires Valid()
      modifies this
      ensures Valid()
      ensures editingId.None?
      ensures editing == old(editing) && sent == old(sent)
      ensures State() == old(State()).(editingId := editingId)
    {
      editingId := None;
    }

    /** The dialog's cancel button closes it and keeps what was typed. */
    method CloseAdvanceDialog()
      requires Valid()
      modifies this
      ensures Valid()
      ensures !advanceOpen
      ensures advanceAmount == old(advanceAmount) && advanceDate == old(advanceDate) && advanceDateError == old(advanceDateError)
      ensures sent == old(sent)
      ensures State() == old(State()).(advanceOpen := advanceOpen)
    {
      advanceOpen := false;
    }

    /** The trash button of an advance: it is deleted and, unless the request throws, the list is fetched again. */
    method DeleteAdvanceClick(advanceId: int, reply: Response<()>)
      requires Valid()
      modifies this
      ensures Valid()
      ensures sent == old(sent) + [DeleteAdvance(advanceId)]
      ensures reply.Reply? ==> refetches == old(refetches) + 1
      ensures reply.NetworkError? ==> refetches == old(refetches)
      ensures finances == old(finances)
      ensures State() == old(State()).(sent := sent, refetches := refetches)
    {
      sent := sent + [DeleteAdvance(advanceId)];
      if reply.Reply? {
        refetches := refetches + 1;
      }
    }
  }
}
