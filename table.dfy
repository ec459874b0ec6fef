/**
 * The sortable, paginated table rules that the finances, board, accounts
 * and history screens repeat: the column-header sort toggle, the
 * previous/next visibility rule and page label, and the bounded page change.
 */
module Table {

  datatype Direction = Asc | Desc

  function Flip(d: Direction): (r: Direction)
    ensures r != d
  {
    if d == Asc then Desc else Asc
  }

  /** The current sort column and direction. */
  datatype Sort = Sort(field: string, direction: Direction)

  /**
   * `handleSort(field)`: the clicked column becomes the sort column; the
   * direction flips when it already was, and starts ascending otherwise.
   */
  function NextSort(s: Sort, field: string): (r: Sort)
    ensures r.field == field
    ensures s.field == field ==> r.direction != s.direction
    ensures s.field != field ==> r.direction == Asc
  {
    if s.field == field then Sort(field, Flip(s.direction)) else Sort(field, Asc)
  }

  /** Two clicks on the same column restore the sort, or leave a new column descending. */
  lemma SortClickTwice(s: Sort, field: string)
    ensures NextSort(NextSort(s, field), field) == if s.field == field then s else Sort(field, Desc)
  {
  }

  /** What the pagination bar shows. */
  datatype Pager = Pager(pageLabel: int, total: int, showPrev: bool, showNext: bool)

  /**
   * The pagination bar: "Сторінка {label} з {total}", with label 0 for an
   * empty list and page+1 otherwise, "Минула" shown iff page > 0 and
   * "Наступна" shown iff page+1 < totalPages. A visible button always
   * leads to a page within the bounds, and a non-empty list's label is
   * between 1 and the page count.
   */
  function Pagination(page: int, totalPages: int, count: nat): (p: Pager)
    ensures p.total == totalPages
    ensures p.showPrev <==> page > 0
    ensures p.showNext <==> page + 1 < totalPages
    ensures count == 0 ==> p.pageLabel == 0
    ensures count > 0 ==> p.pageLabel == page + 1
    ensures 0 <= page < totalPages ==>
      (p.showPrev ==> 0 <= page - 1 < totalPages) &&
      (p.showNext ==> 0 <= page + 1 < totalPages) &&
      (count > 0 ==> 1 <= p.pageLabel <= totalPages)
  {
    Pager(if count == 0 then 0 else page + 1, totalPages, page > 0, page + 1 < totalPages)
  }

  /** On the first page of a single-page result neither button is shown. */
  lemma SinglePageHasNoButtons(totalPages: int, count: nat)
    requires totalPages <= 1
    ensures !Pagination(0, totalPages, count).showPrev && !Pagination(0, totalPages, count).showNext
  {
  }

  /**
   * `onPageChange(newPage)`: the page moves only to an index within
   * 0..totalPages-1, so a page that was within the bounds stays there.
   */
  function PageChange(page: int, newPage: int, totalPages: int): (r: int)
    ensures r == newPage || r == page
    ensures r == newPage <==> (0 <= newPage < totalPages || newPage == page)
    ensures 0 <= page < totalPages ==> 0 <= r < totalPages
  {
    if 0 <= newPage < totalPages then newPage else page
  }
}
