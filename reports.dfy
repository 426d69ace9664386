// Post-processing in the report routes (routes/reportRoutes.js): the signed category breakdown,
// the sales-trend chart, the pagination of the product report, the current/previous split of
// the expense report and the cash-flow day table. Aggregation results are inputs.

module Reports {
  import opened Common
  import opened Buckets
  import Dashboard

  // ---------------------------------------------------------------- breakdown

  /** A sales category: the item-group name (required by the sale schema) with its two sums. */
  datatype SalesCategory = SalesCategory(name: string, amount: int, previousAmount: int)

  /** An expense category; expenses need not have one. */
  datatype ExpenseCategory = ExpenseCategory(category: Option<string>, amount: int, previousAmount: int)

  datatype BreakdownRow = BreakdownRow(category: string, amount: int, previousAmount: int)

  const NoCategory := "Sin categoría"

  /** `Gastos - ${_id || 'Sin categoría'}`: a missing or empty category is labelled as uncategorised. */
  function ExpenseLabel(c: Option<string>): string
  {
    "Gastos - " + (if c.None? || c.value == "" then NoCategory else c.value)
  }

  /** Sales categories first, unchanged; then expense categories with both amounts negated. */
  function Breakdown(sales: seq<SalesCategory>, expenses: seq<ExpenseCategory>): (r: seq<BreakdownRow>)
    ensures |r| == |sales| + |expenses|
    ensures forall i :: 0 <= i < |sales| ==>
      r[i] == BreakdownRow("Ventas - " + sales[i].name, sales[i].amount, sales[i].previousAmount)
    ensures forall i :: 0 <= i < |expenses| ==>
      r[|sales| + i] == BreakdownRow(ExpenseLabel(expenses[i].category), -expenses[i].amount, -expenses[i].previousAmount)
  {
    seq(|sales|, i requires 0 <= i < |sales| =>
      BreakdownRow("Ventas - " + sales[i].name, sales[i].amount, sales[i].previousAmount))
    + seq(|expenses|, i requires 0 <= i < |expenses| =>
      BreakdownRow(ExpenseLabel(expenses[i].category), -expenses[i].amount, -expenses[i].previousAmount))
  }

  function Amounts(rows: seq<BreakdownRow>): seq<int>
  {
    seq(|rows|, i requires 0 <= i < |rows| => rows[i].amount)
  }

  function SalesAmounts(sales: seq<SalesCategory>): seq<int>
  {
    seq(|sales|, i requires 0 <= i < |sales| => sales[i].amount)
  }

  function ExpenseAmounts(expenses: seq<ExpenseCategory>): seq<int>
  {
    seq(|expenses|, i requires 0 <= i < |expenses| => expenses[i].amount)
  }

  function Negated(s: seq<int>): seq<int>
  {
    seq(|s|, i requires 0 <= i < |s| => -s[i])
  }

  lemma {:induction false} SumNegated(s: seq<int>)
    ensures Sum(Negated(s)) == -Sum(s)
    decreases |s|
  {
    if s != [] {
      assert Negated(s)[..|s| - 1] == Negated(s[..|s| - 1]);
      SumNegated(s[..|s| - 1]);
    }
  }

  /**
   * The breakdown's signed amounts add up to the sales-category sums minus the expense-category
   * sums. The sales categories come from unwinding each sale's item groups, so a sale with several
   * groups counts once per group and these sums can exceed the period's total sales.
   */
  lemma BreakdownNetsToProfit(sales: seq<SalesCategory>, expenses: seq<ExpenseCategory>)
    ensures Sum(Amounts(Breakdown(sales, expenses))) == Sum(SalesAmounts(sales)) - Sum(ExpenseAmounts(expenses))
  {
    var b := Breakdown(sales, expenses);
    assert Amounts(b) == SalesAmounts(sales) + Negated(ExpenseAmounts(expenses));
    SumAppend(SalesAmounts(sales), Negated(ExpenseAmounts(expenses)));
    SumNegated(ExpenseAmounts(expenses));
  }

  // ---------------------------------------------------------------- sales trend

  /** The `period` values of the sales trend; `daysDiff` is the length of a custom range in days. */
  datatype TrendPeriod = Week | Month | Year | Custom(daysDiff: int)

  function ParseTrendPeriod(s: string, daysDiff: int): Option<TrendPeriod>
  {
    if s == "week" then Some(Week)
    else if s == "month" then Some(Month)
    else if s == "year" then Some(Year)
    else if s == "custom" then Some(Custom(daysDiff))
    else None
  }

  /**
   * How `processData` labels a row, as written. For a custom period the label test reads
   * `daysDiff`, a constant declared inside the `switch` and therefore out of scope: the read
   * throws a ReferenceError, shown here as `None`.
   */
  function AsWrittenGrouping(p: TrendPeriod): (g: Option<Grouping>)
    ensures g.None? <==> p.Custom?
  {
    match p
    case Week => Some(ByDay)
    case Month => Some(ByWeekOfMonth)
    case Year => Some(ByMonth)
    case Custom(_) => None
  }

  /** The labelling with `daysDiff` in scope: monthly buckets beyond 31 days, no label otherwise. */
  function TrendGrouping(p: TrendPeriod): (g: Grouping)
    ensures !p.Custom? ==> AsWrittenGrouping(p) == Some(g)
  {
    match p
    case Week => ByDay
    case Month => ByWeekOfMonth
    case Year => ByMonth
    case Custom(d) => if d > 31 then ByMonth else Ungrouped
  }

  /** `processData`: a missing bucket starts at `{0, 0}`, then one of its two fields is overwritten. */
  function ProcessPass(m: map<string, Bucket>, g: Grouping, rows: seq<AggRow>, isExpense: bool): map<string, Bucket>
  {
    if rows == [] then m
    else
      var row := rows[|rows| - 1];
      var prior := ProcessPass(m, g, rows[..|rows| - 1], isExpense);
      var key := Label(g, row.group);
      var b := if key in prior then prior[key] else Bucket(0, 0);
      prior[key := if isExpense then b.(expenses := row.total) else b.(sales := row.total)]
  }

  lemma {:induction false} ProcessPassMeaning(m: map<string, Bucket>, g: Grouping, rows: seq<AggRow>, isExpense: bool, key: string)
    ensures key in ProcessPass(m, g, rows, isExpense) <==> key in m || LastTotal(rows, g, key).Some?
    ensures key in ProcessPass(m, g, rows, isExpense) ==> (
      var b := if key in m then m[key] else Bucket(0, 0);
      var t := LastTotal(rows, g, key);
      ProcessPass(m, g, rows, isExpense)[key]
      == if t.None? then b else if isExpense then b.(expenses := t.value) else b.(sales := t.value))
  {
    if rows != [] {
      ProcessPassMeaning(m, g, rows[..|rows| - 1], isExpense, key);
    }
  }

  /** Processing the sales and then the expenses builds the reference bucket map. */
  lemma ProcessBuildsMerged(g: Grouping, sales: seq<AggRow>, expenses: seq<AggRow>)
    ensures ProcessPass(ProcessPass(map[], g, sales, false), g, expenses, true) == Merged(g, sales, expenses)
  {
    var s := ProcessPass(map[], g, sales, false);
    var m := ProcessPass(s, g, expenses, true);
    var r := Merged(g, sales, expenses);
    forall key
      ensures key in m <==> key in r
      ensures key in m ==> m[key] == r[key]
    {
      ProcessPassMeaning(map[], g, sales, false, key);
      ProcessPassMeaning(s, g, expenses, true, key);
      LastTotalSomeIff(sales, g, key);
      LastTotalSomeIff(expenses, g, key);
    }
  }

  /** The dashboard chart and the sales trend file the same rows into the same buckets. */
  lemma TrendAgreesWithChart(g: Grouping, sales: seq<AggRow>, expenses: seq<AggRow>)
    ensures ProcessPass(ProcessPass(map[], g, sales, false), g, expenses, true)
         == Dashboard.ExpensePass(Dashboard.SalesPass(g, sales), g, expenses)
  {
    ProcessBuildsMerged(g, sales, expenses);
    Dashboard.PassesBuildMerged(g, sales, expenses);
  }

  /** One `processData` call; `g == None` is a labelling that throws on the first row. */
  method ProcessData(m: map<string, Bucket>, g: Option<Grouping>, rows: seq<AggRow>, isExpense: bool)
    returns (out: map<string, Bucket>, ok: bool)
    ensures ok <==> g.Some? || rows == []
    ensures ok ==> out == ProcessPass(m, g.GetOr(Ungrouped), rows, isExpense)
  {
    out := m;
    if rows != [] && g.None? {
      return out, false;
    }
    var grouping := g.GetOr(Ungrouped);
    for i := 0 to |rows|
      invariant out == ProcessPass(m, grouping, rows[..i], isExpense)
    {
      assert rows[..i + 1][..i] == rows[..i];
      var key := Label(grouping, rows[i].group);
      if key !in out {
        out := out[key := Bucket(0, 0)];
      }
      if isExpense {
        out := out[key := out[key].(expenses := rows[i].total)];
      } else {
        out := out[key := out[key].(sales := rows[i].total)];
      }
    }
    assert rows[..|rows|] == rows;
    return out, true;
  }

  datatype TrendRow = TrendRow(name: string, sales: int, expenses: int, profit: int)

  /** Each chart row with its profit, sales minus expenses. */
  function WithProfit(rows: seq<Dashboard.ChartRow>): (r: seq<TrendRow>)
    ensures |r| == |rows|
    ensures forall i :: 0 <= i < |rows| ==>
      r[i].name == rows[i].name && r[i].sales == rows[i].sales && r[i].expenses == rows[i].expenses
      && r[i].profit == r[i].sales - r[i].expenses
  {
    seq(|rows|, i requires 0 <= i < |rows| =>
      TrendRow(rows[i].name, rows[i].sales, rows[i].expenses, rows[i].sales - rows[i].expenses))
  }

  const TrendParamsRequired := "clubId y period son requeridos"
  const NoClubs := "No se encontraron clubs para este usuario"
  const InvalidPeriod := "Periodo inválido"
  const TrendError := "Error al obtener tendencia de ventas"

  datatype TrendResponse = Trend(rows: seq<TrendRow>) | TrendBadRequest(message: string) | TrendNotFound | TrendFailed

  predicate Present(s: Option<string>)
  {
    s.Some? && s.value != ""
  }

  /** The ordered rows of each period; a custom period lists none. */
  method OrderedRows(p: TrendPeriod, m: map<string, Bucket>) returns (rows: seq<TrendRow>)
    ensures p == Week ==> rows == WithProfit(Dashboard.FixedRows(m, DayOrder))
    ensures p == Month ==> rows == WithProfit(Dashboard.WeekRows(m, Dashboard.PresentWeeks(m, 5)))
    ensures p == Year ==> rows == WithProfit(Dashboard.FixedRows(m, MonthNames))
    ensures p.Custom? ==> rows == []
  {
    match p {
      case Week => rows := WithProfit(Dashboard.FixedRows(m, DayOrder));
      case Month =>
        var weeks := Dashboard.MonthlyRows(m);
        rows := WithProfit(weeks);
      case Year => rows := WithProfit(Dashboard.FixedRows(m, MonthNames));
      case Custom(_) => rows := [];
    }
  }

  /**
   * `GET /sales-trend` as written, on the owner's club list (`None`: no such user) and the two
   * aggregate results.
   */
  method SalesTrend(
    clubId: Option<string>, period: Option<string>, daysDiff: int, ownerClubs: Option<seq<Id>>,
    sales: seq<AggRow>, expenses: seq<AggRow>) returns (r: TrendResponse)
    ensures !Present(clubId) || !Present(period) ==> r == TrendBadRequest(TrendParamsRequired)
    ensures Present(clubId) && Present(period) && (ownerClubs.None? || ownerClubs.value == [])
      ==> r == TrendNotFound
    ensures Present(clubId) && Present(period) && ownerClubs.Some? && ownerClubs.value != []
      ==> match ParseTrendPeriod(period.value, daysDiff)
          case None => r == TrendBadRequest(InvalidPeriod)
          case Some(Custom(_)) => r == (if sales == [] && expenses == [] then Trend([]) else TrendFailed)
          case Some(p) => r.Trend? && r.rows == TrendRowsOf(p, Merged(TrendGrouping(p), sales, expenses))
  {
    if !Present(clubId) || !Present(period) {
      return TrendBadRequest(TrendParamsRequired);
    }
    if ownerClubs.None? || ownerClubs.value == [] {
      return TrendNotFound;
    }
    var p := ParseTrendPeriod(period.value, daysDiff);
    if p.None? {
      return TrendBadRequest(InvalidPeriod);
    }
    var m, ok := ProcessData(map[], AsWrittenGrouping(p.value), sales, false);
    if !ok {
      return TrendFailed;
    }
    var ok2;
    m, ok2 := ProcessData(m, AsWrittenGrouping(p.value), expenses, true);
    if !ok2 {
      return TrendFailed;
    }
    if !p.value.Custom? {
      ProcessBuildsMerged(TrendGrouping(p.value), sales, expenses);
    }
    var rows := OrderedRows(p.value, m);
    r := Trend(rows);
  }

  /** The rows `OrderedRows` gives for a period, as a function of the bucket map. */
  function TrendRowsOf(p: TrendPeriod, m: map<string, Bucket>): seq<TrendRow>
  {
    match p
    case Week => WithProfit(Dashboard.FixedRows(m, DayOrder))
    case Month => WithProfit(Dashboard.WeekRows(m, Dashboard.PresentWeeks(m, 5)))
    case Year => WithProfit(Dashboard.FixedRows(m, MonthNames))
    case Custom(_) => []
  }

  /** The sales trend with `daysDiff` in scope: a custom period answers with no rows instead of failing. */
  method SalesTrendCorrected(
    clubId: Option<string>, period: Option<string>, daysDiff: int, ownerClubs: Option<seq<Id>>,
    sales: seq<AggRow>, expenses: seq<AggRow>) returns (r: TrendResponse)
    ensures !Present(clubId) || !Present(period) ==> r == TrendBadRequest(TrendParamsRequired)
    ensures Present(clubId) && Present(period) && (ownerClubs.None? || ownerClubs.value == [])
      ==> r == TrendNotFound
    ensures Present(clubId) && Present(period) && ownerClubs.Some? && ownerClubs.value != []
      ==> match ParseTrendPeriod(period.value, daysDiff)
          case None => r == TrendBadRequest(InvalidPeriod)
          case Some(p) => r.Trend? && r.rows == TrendRowsOf(p, Merged(TrendGrouping(p), sales, expenses))
  {
    if !Present(clubId) || !Present(period) {
      return TrendBadRequest(TrendParamsRequired);
    }
    if ownerClubs.None? || ownerClubs.value == [] {
      return TrendNotFound;
    }
    var p := ParseTrendPeriod(period.value, daysDiff);
    if p.None? {
      return TrendBadRequest(InvalidPeriod);
    }
    var g := TrendGrouping(p.value);
    var m, _ := ProcessData(map[], Some(g), sales, false);
    var ok;
    m, ok := ProcessData(m, Some(g), expenses, true);
    ProcessBuildsMerged(g, sales, expenses);
    var rows := OrderedRows(p.value, m);
    r := Trend(rows);
  }

  // ---------------------------------------------------------------- pagination

  /** `parseInt(param) || fallback`: NaN and 0 both give the fallback. */
  function IntParamOr(param: Option<string>, fallback: int): (r: int)
    ensures param.None? ==> r == fallback
    ensures param.Some? && JsStrings.ParseInt(param.value).Some? && JsStrings.ParseInt(param.value).value != 0
      ==> r == JsStrings.ParseInt(param.value).value
    ensures fallback != 0 ==> r != 0
  {
    match param
    case None => fallback
    case Some(s) =>
      match JsStrings.ParseInt(s)
      case None => fallback
      case Some(v) => if v == 0 then fallback else v
  }

  datatype PageQuery = PageQuery(page: int, limit: int, skip: int)

  function PageQueryOf(pageParam: Option<string>, limitParam: Option<string>): (q: PageQuery)
    ensures q.page == IntParamOr(pageParam, 1) && q.limit == IntParamOr(limitParam, 7)
    ensures q.skip == (q.page - 1) * q.limit
    ensures pageParam.None? ==> q.page == 1 && q.skip == 0
    ensures limitParam.None? ==> q.limit == 7
  {
    var page := IntParamOr(pageParam, 1);
    var limit := IntParamOr(limitParam, 7);
    PageQuery(page, limit, (page - 1) * limit)
  }

  /** `Math.ceil(total / limit)` for a positive limit. */
  function TotalPages(total: nat, limit: int): (n: nat)
    requires limit > 0
    ensures n * limit >= total
    ensures total > 0 ==> (n - 1) * limit < total
    ensures total == 0 ==> n == 0
  {
    (total + limit - 1) / limit
  }

  function Min(a: int, b: int): int
  {
    if a < b then a else b
  }

  /** `$skip` then `$limit` on the sorted stream. */
  function Slice<T>(items: seq<T>, skip: nat, limit: nat): (r: seq<T>)
    ensures |r| <= limit
  {
    items[Min(skip, |items|)..Min(skip + limit, |items|)]
  }

  datatype PageResult<T> = PageRows(rows: seq<T>, currentPage: int, totalPages: nat, totalItems: nat) | PageFailed

  /**
   * The low-rotation page of the product report. `sorted` is the club's inventory after the
   * product lookup, in the report's order; `records` is the separate `$count` of the club's
   * inventory records, taken before the lookup, so a record whose product is gone is counted in
   * the pagination but never listed. The database rejects a negative `$skip` and a `$limit`
   * that is not positive, so such a query fails the request.
   */
  function LowRotationPage<T>(sorted: seq<T>, records: nat, q: PageQuery): (r: PageResult<T>)
    ensures r.PageFailed? <==> q.skip < 0 || q.limit <= 0
    ensures r.PageRows? ==> (
      && |r.rows| <= q.limit && r.rows == Slice(sorted, q.skip, q.limit) && r.totalItems == records
      && r.totalPages == TotalPages(records, q.limit) && r.currentPage == q.page)
  {
    if q.skip < 0 || q.limit <= 0 then PageFailed
    else PageRows(Slice(sorted, q.skip, q.limit), q.page, TotalPages(records, q.limit), records)
  }

  /** Pages 1..n concatenated. */
  function Pages<T>(items: seq<T>, limit: nat, n: nat): seq<T>
  {
    if n == 0 then [] else Pages(items, limit, n - 1) + Slice(items, (n - 1) * limit, limit)
  }

  lemma {:induction false} PagesArePrefix<T>(items: seq<T>, limit: nat, n: nat)
    ensures Pages(items, limit, n) == items[..Min(n * limit, |items|)]
  {
    if n > 0 {
      PagesArePrefix(items, limit, n - 1);
      var a := Min((n - 1) * limit, |items|);
      var b := Min(n * limit, |items|);
      assert (n - 1) * limit + limit == n * limit;
      assert items[..a] + items[a..b] == items[..b];
    }
  }

  /** Walking pages 1 to totalPages lists every item exactly once, in order. */
  lemma PagesCoverAll<T>(items: seq<T>, limit: nat)
    requires limit > 0
    ensures Pages(items, limit, TotalPages(|items|, limit)) == items
  {
    PagesArePrefix(items, limit, TotalPages(|items|, limit));
    assert items[..|items|] == items;
  }

  // ---------------------------------------------------------------- expense report totals

  /** A `$group` on `isPrevious`: at most one group per flag. */
  datatype SplitGroup = SplitGroup(isPrevious: bool, total: int)

  /** `find(e => e._id.isPrevious == previous)?.total || 0`. */
  function GroupTotal(groups: seq<SplitGroup>, previous: bool): (r: int)
    ensures (forall i :: 0 <= i < |groups| ==> groups[i].isPrevious != previous) ==> r == 0
  {
    if groups == [] then 0
    else if groups[0].isPrevious == previous then groups[0].total
    else GroupTotal(groups[1..], previous)
  }

  /** The total reported is the first group with the requested flag. */
  lemma {:induction false} GroupTotalIsFirst(groups: seq<SplitGroup>, previous: bool, i: nat)
    requires i < |groups| && groups[i].isPrevious == previous
    requires forall j :: 0 <= j < i ==> groups[j].isPrevious != previous
    ensures GroupTotal(groups, previous) == groups[i].total
  {
    if i > 0 {
      GroupTotalIsFirst(groups[1..], previous, i - 1);
    }
  }

  datatype ExpenseTotals = ExpenseTotals(totalExpenses: int, previousTotalExpenses: int)

  function ExpenseReportTotals(groups: seq<SplitGroup>): (r: ExpenseTotals)
    ensures r.totalExpenses == GroupTotal(groups, false) && r.previousTotalExpenses == GroupTotal(groups, true)
  {
    ExpenseTotals(GroupTotal(groups, false), GroupTotal(groups, true))
  }

  /**
   * The aggregation groups by the flag, so it returns at most one group per flag, in either order.
   * On each of those shapes each total comes from its own group, and a missing group counts 0.
   */
  lemma SplitOfTwoGroups(current: int, previous: int)
    ensures ExpenseReportTotals([SplitGroup(true, previous), SplitGroup(false, current)]) == ExpenseTotals(current, previous)
    ensures ExpenseReportTotals([SplitGroup(false, current), SplitGroup(true, previous)]) == ExpenseTotals(current, previous)
    ensures ExpenseReportTotals([SplitGroup(true, previous)]) == ExpenseTotals(0, previous)
    ensures ExpenseReportTotals([SplitGroup(false, current)]) == ExpenseTotals(current, 0)
    ensures ExpenseReportTotals([]) == ExpenseTotals(0, 0)
  {
    GroupTotalIsFirst([SplitGroup(true, previous), SplitGroup(false, current)], false, 1);
    GroupTotalIsFirst([SplitGroup(false, current), SplitGroup(true, previous)], true, 1);
  }

  // ---------------------------------------------------------------- cash flow

  /** One row of a per-day aggregate: the `YYYY-MM-DD` key, the summed amount and the row count. */
  datatype DayRow = DayRow(day: string, amount: int, count: int)

  datatype CashDay = CashDay(
    date: string, inflow: int, outflow: int, balance: int, inflowCount: int, outflowCount: int, hasData: bool)

  function FreshDay(d: string): CashDay
  {
    CashDay(d, 0, 0, 0, 0, 0, false)
  }

  /** The zero-initialised table the `while` loop builds, one entry per day of the range. */
  function FreshTable(days: seq<string>): (t: seq<CashDay>)
    ensures |t| == |days|
  {
    seq(|days|, i requires 0 <= i < |days| => FreshDay(days[i]))
  }

  predicate Distinct(days: seq<string>)
  {
    forall i, j :: 0 <= i < j < |days| ==> days[i] != days[j]
  }

  /** `cashFlowMap.get(day)`: the position of the day in the table. */
  function IndexOf(days: seq<string>, d: string): (r: Option<nat>)
    ensures r.Some? ==> r.value < |days| && days[r.value] == d
    ensures r.None? <==> d !in days
  {
    if days == [] then None
    else if days[0] == d then Some(0)
    else match IndexOf(days[1..], d)
      case None => None
      case Some(i) => Some(i + 1)
  }

  lemma IndexOfDistinct(days: seq<string>, i: nat)
    requires Distinct(days) && i < |days|
    ensures IndexOf(days, days[i]) == Some(i)
  {
    var r := IndexOf(days, days[i]);
    assert r.Some?;
  }

  /** The last row filed under a day. */
  function LastRow(rows: seq<DayRow>, d: string): Option<DayRow>
  {
    if rows == [] then None
    else if rows[|rows| - 1].day == d then Some(rows[|rows| - 1])
    else LastRow(rows[..|rows| - 1], d)
  }

  /** The sales pass: a row for a day in the range overwrites its inflow and count and marks it. */
  function InflowPass(t: seq<CashDay>, days: seq<string>, rows: seq<DayRow>): (r: seq<CashDay>)
    requires |t| == |days|
    ensures |r| == |t|
  {
    if rows == [] then t
    else
      var row := rows[|rows| - 1];
      var prior := InflowPass(t, days, rows[..|rows| - 1]);
      match IndexOf(days, row.day)
      case None => prior
      case Some(i) => prior[i := prior[i].(inflow := row.amount, inflowCount := row.count, hasData := true)]
  }

  /** The expense pass, the same on the outflow side. */
  function OutflowPass(t: seq<CashDay>, days: seq<string>, rows: seq<DayRow>): (r: seq<CashDay>)
    requires |t| == |days|
    ensures |r| == |t|
  {
    if rows == [] then t
    else
      var row := rows[|rows| - 1];
      var prior := OutflowPass(t, days, rows[..|rows| - 1]);
      match IndexOf(days, row.day)
      case None => prior
      case Some(i) => prior[i := prior[i].(outflow := row.amount, outflowCount := row.count, hasData := true)]
  }

  /** `totalInflow += row.inflow` for every row whose day is in the range; the other rows count for nothing. */
  function InRangeTotal(rows: seq<DayRow>, days: seq<string>): int
  {
    if rows == [] then 0
    else
      var row := rows[|rows| - 1];
      InRangeTotal(rows[..|rows| - 1], days) + (if row.day in days then row.amount else 0)
  }

  /** What a day of the range is meant to show: the last sales and expense rows filed under it. */
  function DayOf(d: string, sales: seq<DayRow>, expenses: seq<DayRow>): CashDay
  {
    var s := LastRow(sales, d);
    var e := LastRow(expenses, d);
    CashDay(d, if s.Some? then s.value.amount else 0, if e.Some? then e.value.amount else 0, 0,
            if s.Some? then s.value.count else 0, if e.Some? then e.value.count else 0, s.Some? || e.Some?)
  }

  function DayTable(days: seq<string>, sales: seq<DayRow>, expenses: seq<DayRow>): (t: seq<CashDay>)
    ensures |t| == |days|
  {
    seq(|days|, i requires 0 <= i < |days| => DayOf(days[i], sales, expenses))
  }

  lemma {:induction false} InflowPassMeaning(t: seq<CashDay>, days: seq<string>, rows: seq<DayRow>, i: nat)
    requires |t| == |days| && Distinct(days) && i < |days|
    ensures var s := LastRow(rows, days[i]);
      InflowPass(t, days, rows)[i]
      == if s.Some? then t[i].(inflow := s.value.amount, inflowCount := s.value.count, hasData := true) else t[i]
  {
    if rows != [] {
      InflowPassMeaning(t, days, rows[..|rows| - 1], i);
      var row := rows[|rows| - 1];
      if row.day == days[i] {
        IndexOfDistinct(days, i);
      }
    }
  }

  lemma {:induction false} OutflowPassMeaning(t: seq<CashDay>, days: seq<string>, rows: seq<DayRow>, i: nat)
    requires |t| == |days| && Distinct(days) && i < |days|
    ensures var e := LastRow(rows, days[i]);
      OutflowPass(t, days, rows)[i]
      == if e.Some? then t[i].(outflow := e.value.amount, outflowCount := e.value.count, hasData := true) else t[i]
  {
    if rows != [] {
      OutflowPassMeaning(t, days, rows[..|rows| - 1], i);
      var row := rows[|rows| - 1];
      if row.day == days[i] {
        IndexOfDistinct(days, i);
      }
    }
  }

  /** The two `forEach` passes over the fresh table give every day its reference entry. */
  lemma PassesBuildDayTable(days: seq<string>, sales: seq<DayRow>, expenses: seq<DayRow>)
    requires Distinct(days)
    ensures OutflowPass(InflowPass(FreshTable(days), days, sales), days, expenses) == DayTable(days, sales, expenses)
  {
    var a := InflowPass(FreshTable(days), days, sales);
    var b := OutflowPass(a, days, expenses);
    forall i | 0 <= i < |days|
      ensures b[i] == DayTable(days, sales, expenses)[i]
    {
      InflowPassMeaning(FreshTable(days), days, sales, i);
      OutflowPassMeaning(a, days, expenses, i);
    }
  }

  function Nets(t: seq<CashDay>): (n: seq<int>)
    ensures |n| == |t|
  {
    seq(|t|, i requires 0 <= i < |t| => t[i].inflow - t[i].outflow)
  }

  /** Each day with its running balance: the sum of inflow minus outflow over the days up to it. */
  function WithBalances(t: seq<CashDay>): (r: seq<CashDay>)
    ensures |r| == |t|
  {
    seq(|t|, i requires 0 <= i < |t| => t[i].(balance := Sum(Nets(t)[..i + 1])))
  }

  /** The running balance moves by each day's net flow, starting from that of the first day. */
  lemma BalanceRecurrence(t: seq<CashDay>, i: nat)
    requires 0 < i < |t|
    ensures WithBalances(t)[0].balance == t[0].inflow - t[0].outflow
    ensures WithBalances(t)[i].balance == WithBalances(t)[i - 1].balance + t[i].inflow - t[i].outflow
  {
    var n := Nets(t);
    assert n[..i + 1][..i] == n[..i];
    assert n[..1] == [n[0]];
    SumSingle(n[0]);
  }

  /** The `Array.from(...).map` that accumulates `runningBalance`. */
  method RunningBalance(t: seq<CashDay>) returns (data: seq<CashDay>)
    ensures data == WithBalances(t)
  {
    var running := 0;
    data := [];
    var n := Nets(t);
    for i := 0 to |t|
      invariant |data| == i
      invariant running == Sum(n[..i])
      invariant forall j :: 0 <= j < i ==> data[j] == t[j].(balance := Sum(n[..j + 1]))
    {
      assert n[..i + 1][..i] == n[..i];
      running := running + (t[i].inflow - t[i].outflow);
      data := data + [t[i].(balance := running)];
    }
  }

  datatype CashFlowSummary = CashFlowSummary(totalInflow: int, totalOutflow: int, netCashFlow: int)

  /**
   * The cash-flow report on the days of the range (distinct date keys; the calendar loop that
   * produces them is not modelled) and the two per-day aggregates.
   */
  method CashFlow(days: seq<string>, sales: seq<DayRow>, expenses: seq<DayRow>)
    returns (data: seq<CashDay>, summary: CashFlowSummary)
    requires Distinct(days)
    ensures data == WithBalances(DayTable(days, sales, expenses))
    ensures summary.totalInflow == InRangeTotal(sales, days)
    ensures summary.totalOutflow == InRangeTotal(expenses, days)
    ensures summary.netCashFlow == summary.totalInflow - summary.totalOutflow
  {
    var table: seq<CashDay> := [];
    var k := 0;
    while k < |days|
      invariant k <= |days|
      invariant table == FreshTable(days[..k])
    {
      table := table + [FreshDay(days[k])];
      k := k + 1;
    }
    assert days[..|days|] == days;
    var totalInflow := 0;
    for i := 0 to |sales|
      invariant |table| == |days|
      invariant table == InflowPass(FreshTable(days), days, sales[..i])
      invariant totalInflow == InRangeTotal(sales[..i], days)
    {
      assert sales[..i + 1][..i] == sales[..i];
      var at := IndexOf(days, sales[i].day);
      if at.Some? {
        var j := at.value;
        table := table[j := table[j].(inflow := sales[i].amount, inflowCount := sales[i].count, hasData := true)];
        totalInflow := totalInflow + sales[i].amount;
      }
    }
    assert sales[..|sales|] == sales;
    ghost var afterSales := table;
    var totalOutflow := 0;
    for i := 0 to |expenses|
      invariant |table| == |days|
      invariant table == OutflowPass(afterSales, days, expenses[..i])
      invariant totalOutflow == InRangeTotal(expenses[..i], days)
    {
      assert expenses[..i + 1][..i] == expenses[..i];
      var at := IndexOf(days, expenses[i].day);
      if at.Some? {
        var j := at.value;
        table := table[j := table[j].(outflow := expenses[i].amount, outflowCount := expenses[i].count, hasData := true)];
        totalOutflow := totalOutflow + expenses[i].amount;
      }
    }
    assert expenses[..|expenses|] == expenses;
    PassesBuildDayTable(days, sales, expenses);
    data := RunningBalance(table);
    summary := CashFlowSummary(totalInflow, totalOutflow, totalInflow - totalOutflow);
  }

  // The per-day aggregates group by day, so no two of their rows share a day. Under that
  // condition the summary totals are the sums of the table's columns, and the last running
  // balance is the net cash flow.

  predicate OnePerDay(rows: seq<DayRow>)
  {
    forall i, j :: 0 <= i < j < |rows| ==> rows[i].day != rows[j].day
  }

  function DayAmounts(rows: seq<DayRow>, days: seq<string>): (a: seq<int>)
    ensures |a| == |days|
  {
    seq(|days|, i requires 0 <= i < |days| => var r := LastRow(rows, days[i]); if r.Some? then r.value.amount else 0)
  }

  lemma {:induction false} LastRowNone(rows: seq<DayRow>, d: string)
    requires forall k :: 0 <= k < |rows| ==> rows[k].day != d
    ensures LastRow(rows, d) == None
  {
    if rows != [] {
      LastRowNone(rows[..|rows| - 1], d);
    }
  }

  lemma {:induction false} SumOfZeros(s: seq<int>)
    requires forall i :: 0 <= i < |s| ==> s[i] == 0
    ensures Sum(s) == 0
  {
    if s != [] {
      SumOfZeros(s[..|s| - 1]);
    }
  }

  lemma {:induction false} InRangeTotalIsDaySum(rows: seq<DayRow>, days: seq<string>)
    requires Distinct(days) && OnePerDay(rows)
    ensures InRangeTotal(rows, days) == Sum(DayAmounts(rows, days))
  {
    if rows == [] {
      SumOfZeros(DayAmounts(rows, days));
    } else {
      var n := |rows| - 1;
      var init := rows[..n];
      var row := rows[n];
      InRangeTotalIsDaySum(init, days);
      var before := DayAmounts(init, days);
      var after := DayAmounts(rows, days);
      if row.day in days {
        var j := IndexOf(days, row.day).value;
        LastRowNone(init, row.day);
        SumChangeOne(before, after, j, row.amount);
      } else {
        assert before == after;
      }
    }
  }

  function Differences(a: seq<int>, b: seq<int>): seq<int>
    requires |a| == |b|
  {
    seq(|a|, i requires 0 <= i < |a| => a[i] - b[i])
  }

  lemma {:induction false} SumDifferences(a: seq<int>, b: seq<int>)
    requires |a| == |b|
    ensures Sum(Differences(a, b)) == Sum(a) - Sum(b)
    decreases |a|
  {
    if a != [] {
      var n := |a| - 1;
      assert Differences(a, b)[..n] == Differences(a[..n], b[..n]);
      SumDifferences(a[..n], b[..n]);
    }
  }

  /** A day's net flow is its sales amount minus its expense amount. */
  lemma NetsOfDayTable(days: seq<string>, sales: seq<DayRow>, expenses: seq<DayRow>)
    ensures Nets(DayTable(days, sales, expenses)) == Differences(DayAmounts(sales, days), DayAmounts(expenses, days))
  {
    var t := DayTable(days, sales, expenses);
    var a, b := DayAmounts(sales, days), DayAmounts(expenses, days);
    forall i | 0 <= i < |days|
      ensures Nets(t)[i] == Differences(a, b)[i]
    {
      assert t[i] == DayOf(days[i], sales, expenses);
    }
  }

  /** The last day's running balance is the summary's net cash flow. */
  lemma FinalBalanceIsNet(days: seq<string>, sales: seq<DayRow>, expenses: seq<DayRow>)
    requires Distinct(days) && |days| > 0 && OnePerDay(sales) && OnePerDay(expenses)
    ensures WithBalances(DayTable(days, sales, expenses))[|days| - 1].balance
         == InRangeTotal(sales, days) - InRangeTotal(expenses, days)
  {
    var t := DayTable(days, sales, expenses);
    var n := Nets(t);
    assert n[..|days|] == n;
    NetsOfDayTable(days, sales, expenses);
    SumDifferences(DayAmounts(sales, days), DayAmounts(expenses, days));
    InRangeTotalIsDaySum(sales, days);
    InRangeTotalIsDaySum(expenses, days);
  }
}
