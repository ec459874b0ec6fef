/**
 * The administrator's statistics: per-month totals of one operation type
 * for one year, shown as a twelve-month chart, with buttons that switch
 * the type and step the year.
 */
module AdminDashboard {
  import opened Http

  datatype StatType = Expense | Income

  /** One record of `/stats`: a month number (1 for January) and its total. */
  datatype MonthStats = MonthStats(month: int, amount: real)

  const MonthNames: seq<string> := ["Січень", "Лютий", "Березень", "Квітень", "Травень", "Червень",
                                    "Липень", "Серпень", "Вересень", "Жовтень", "Листопад", "Грудень"]

  datatype ChartEntry = ChartEntry(monthName: string, amount: real)

  /** `stats.find(s => s.month === month)` as an index: the first matching record, or `|stats|`. */
  function FirstIndexOf(stats: seq<MonthStats>, month: int): (i: nat)
    ensures i <= |stats|
    ensures i < |stats| ==> stats[i].month == month
    ensures forall j :: 0 <= j < i ==> stats[j].month != month
  {
    if stats == [] then 0
    else if stats[0].month == month then 0
    else
      var i := 1 + FirstIndexOf(stats[1..], month);
      assert forall j :: 1 <= j < i ==> stats[j] == stats[1..][j - 1];
      i
  }

  /** `m?.amount ?? 0`: the first matching record's amount, or 0 when there is none. */
  function MonthAmount(stats: seq<MonthStats>, month: int): (r: real)
    ensures !HasMonth(stats, month) ==> r == 0.0
    ensures HasMonth(stats, month) ==>
      exists k :: 0 <= k < |stats| && stats[k].month == month && r == stats[k].amount &&
                  forall j :: 0 <= j < k ==> stats[j].month != month
  {
    var i := FirstIndexOf(stats, month);
    if i < |stats| then stats[i].amount else 0.0
  }

  predicate HasMonth(stats: seq<MonthStats>, month: int) {
    exists k :: 0 <= k < |stats| && stats[k].month == month
  }

  /** Searching a concatenation finds the first part's match if it has one, and otherwise the second's. */
  lemma {:induction false} FirstIndexOfAppend(a: seq<MonthStats>, b: seq<MonthStats>, month: int)
    ensures FirstIndexOf(a + b, month) ==
      if FirstIndexOf(a, month) < |a| then FirstIndexOf(a, month) else |a| + FirstIndexOf(b, month)
    decreases |a|
  {
    if a == [] {
      assert a + b == b;
    } else {
      assert (a + b)[1..] == a[1..] + b;
      FirstIndexOfAppend(a[1..], b, month);
    }
  }

  /** Only the first record of a month counts: the amount comes from the first part whenever it has that month. */
  lemma MonthAmountAppend(a: seq<MonthStats>, b: seq<MonthStats>, month: int)
    ensures MonthAmount(a + b, month) == if HasMonth(a, month) then MonthAmount(a, month) else MonthAmount(b, month)
  {
    FirstIndexOfAppend(a, b, month);
    var i := FirstIndexOf(a, month);
    if i < |a| {
      assert (a + b)[i] == a[i];
    } else {
      assert (a + b)[|a| + FirstIndexOf(b, month)..] == b[FirstIndexOf(b, month)..];
      if FirstIndexOf(b, month) < |b| {
        assert (a + b)[|a| + FirstIndexOf(b, month)] == b[FirstIndexOf(b, month)];
      }
    }
  }

  /**
   * `chartData`: exactly twelve entries in month order; entry i is labelled
   * with the first three letters of the month's name and carries the first
   * record for month i+1, or 0.
   */
  function ChartData(stats: seq<MonthStats>): (c: seq<ChartEntry>)
    ensures |c| == 12
    ensures forall i :: 0 <= i < 12 ==> c[i].monthName == MonthNames[i][..3]
    ensures forall i :: 0 <= i < 12 ==> c[i].amount == MonthAmount(stats, i + 1)
    ensures forall i :: 0 <= i < 12 && !HasMonth(stats, i + 1) ==> c[i].amount == 0.0
  {
    seq(12, i requires 0 <= i < 12 => ChartEntry(MonthNames[i][..3], MonthAmount(stats, i + 1)))
  }

  /** Records for months outside 1..12, wherever they are, never reach the chart. */
  lemma OutOfRangeMonthsIgnored(before: seq<MonthStats>, r: MonthStats, after: seq<MonthStats>)
    requires r.month < 1 || r.month > 12
    ensures ChartData(before + [r] + after) == ChartData(before + after)
  {
    forall m | 1 <= m <= 12
      ensures MonthAmount(before + [r] + after, m) == MonthAmount(before + after, m)
    {
      MonthAmountAppend(before + [r], after, m);
      MonthAmountAppend(before, [r], m);
      MonthAmountAppend(before, after, m);
      HasMonthAppendOther(before, r, m);
    }
  }

  lemma HasMonthAppendOther(a: seq<MonthStats>, r: MonthStats, m: int)
    requires r.month != m
    ensures HasMonth(a + [r], m) <==> HasMonth(a, m)
  {
    assert forall k :: 0 <= k < |a| ==> (a + [r])[k] == a[k];
    assert (a + [r])[|a|] == r;
  }

  /** A later record for a month already present never reaches the chart. */
  lemma LaterDuplicatesIgnored(stats: seq<MonthStats>, r: MonthStats)
    requires HasMonth(stats, r.month)
    ensures ChartData(stats + [r]) == ChartData(stats)
  {
    forall m | 1 <= m <= 12 ensures MonthAmount(stats + [r], m) == MonthAmount(stats, m) {
      MonthAmountAppend(stats, [r], m);
    }
  }

  /** The chart's month labels. */
  const ShortMonthNames: seq<string> := ["Січ", "Лют", "Бер", "Кві", "Тра", "Чер",
                                         "Лип", "Сер", "Вер", "Жов", "Лис", "Гру"]

  /** The labels are the first three letters of each Ukrainian month name. */
  lemma ChartLabels(stats: seq<MonthStats>)
    ensures forall i :: 0 <= i < 12 ==> ChartData(stats)[i].monthName == ShortMonthNames[i]
  {
    FirstHalfLabels();
    SecondHalfLabels();
  }

  lemma FirstHalfLabels()
    ensures forall i :: 0 <= i < 6 ==> MonthNames[i][..3] == ShortMonthNames[i]
  {
    assert MonthNames[0][..3] == ShortMonthNames[0];
    assert MonthNames[1][..3] == ShortMonthNames[1];
    assert MonthNames[2][..3] == ShortMonthNames[2];
    assert MonthNames[3][..3] == ShortMonthNames[3];
    assert MonthNames[4][..3] == ShortMonthNames[4];
    assert MonthNames[5][..3] == ShortMonthNames[5];
  }

  lemma SecondHalfLabels()
    ensures forall i :: 6 <= i < 12 ==> MonthNames[i][..3] == ShortMonthNames[i]
  {
    assert MonthNames[6][..3] == ShortMonthNames[6];
    assert MonthNames[7][..3] == ShortMonthNames[7];
    assert MonthNames[8][..3] == ShortMonthNames[8];
    assert MonthNames[9][..3] == ShortMonthNames[9];
    assert MonthNames[10][..3] == ShortMonthNames[10];
    assert MonthNames[11][..3] == ShortMonthNames[11];
  }

  class Dashboard {
    var year: int
    var statType: StatType
    var stats: seq<MonthStats>

    /** The current year (read from the clock, so passed in), expenses, no records yet. */
    constructor (currentYear: int)
      ensures year == currentYear && statType == Expense && stats == []
    {
      year := currentYear;
      statType := Expense;
      stats := [];
    }

    /** A 200 replaces the records, another status keeps them, a failed request empties them. */
    method OnStatsReply(reply: Response<seq<MonthStats>>)
      modifies this
      ensures IsOk(reply) ==> stats == reply.body
      ensures reply.Reply? && reply.status != 200 ==> stats == old(stats)
      ensures reply.NetworkError? ==> stats == [] && forall i :: 0 <= i < 12 ==> ChartData(stats)[i].amount == 0.0
      ensures year == old(year) && statType == old(statType)
    {
      if reply.NetworkError? {
        stats := [];
        return;
      }
      if reply.status == Ok {
        stats := reply.body;
      }
    }

    method PreviousYear()
      modifies this
      ensures year == old(year) - 1 && statType == old(statType) && stats == old(stats)
    {
      year := year - 1;
    }

    method NextYear()
      modifies this
      ensures year == old(year) + 1 && statType == old(statType) && stats == old(stats)
    {
      year := year + 1;
    }

    /** The "Витрати" and "Доходи" tabs. */
    method SetType(t: StatType)
      modifies this
      ensures statType == t && year == old(year) && stats == old(stats)
    {
      statType := t;
    }
  }
}
