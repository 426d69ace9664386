// The dashboard (routes/dashboard.js): the monthly KPIs with the critical-inventory list, and the
// sales-vs-expenses chart built from two aggregate results. The database queries and the
// aggregation pipelines are inputs; what is modelled is the code that runs on their results.

module Dashboard {
  import opened Common
  import opened JsStrings
  import opened InventorySchema
  import opened Documents
  import opened Buckets

  // ---------------------------------------------------------------- critical inventory

  /** The `$or` of the critical-inventory query. */
  predicate Critical(r: Record)
  {
    r.sealed < 5 || r.preparation.currentPortions < 10
  }

  /** `Inventory.find({clubId, $or: [...]})`: the club's critical records in storage order. */
  function CriticalOf(records: seq<Record>, clubId: Id): (r: seq<Record>)
    ensures forall x :: x in r <==> x in records && x.clubId == clubId && Critical(x)
    ensures |r| <= |records|
  {
    if records == [] then []
    else
      var last := records[|records| - 1];
      CriticalOf(records[..|records| - 1], clubId) + (if last.clubId == clubId && Critical(last) then [last] else [])
  }

  /** One entry of `inventoryItems`. */
  datatype CriticalItem = CriticalItem(name: string, stock: string)

  const UnknownProduct := "Producto desconocido"

  /** `name` plus ` (flavor)` when the flavor is a non-empty string; a dangling reference has no product. */
  function ProductLabel(p: Option<Product>): (r: string)
    ensures p.None? ==> r == UnknownProduct
    ensures p.Some? ==> |p.value.name| <= |r| && r[..|p.value.name|] == p.value.name
    ensures p.Some? ==> (|r| > |p.value.name| <==> p.value.flavor.Some? && p.value.flavor.value != "")
  {
    match p
    case None => UnknownProduct
    case Some(prod) =>
      if prod.flavor.Some? && prod.flavor.value != "" then prod.name + " (" + prod.flavor.value + ")"
      else prod.name
  }

  /** The stock column: sealed units when those are under 5, the portions otherwise. */
  function StockLabel(r: Record): string
  {
    if r.sealed < 5 then IntToString(r.sealed) + " unidades"
    else IntToString(r.preparation.currentPortions) + " porciones"
  }

  /** The stock label names the axis it reports, and its number reads back as that axis's balance. */
  lemma StockLabelReadsBack(r: Record)
    ensures r.sealed < 5 ==> ParseInt(StockLabel(r)) == Some(r.sealed)
    ensures r.sealed >= 5 ==> ParseInt(StockLabel(r)) == Some(r.preparation.currentPortions)
    ensures r.sealed < 5 <==> Suffix9(StockLabel(r)) == " unidades"
  {
    if r.sealed < 5 {
      CountLabel(r.sealed, " unidades");
    } else {
      CountLabel(r.preparation.currentPortions, " porciones");
      assert " porciones"[1..] != " unidades";
    }
  }

  /** The last nine characters, or the whole string when it is shorter. */
  function Suffix9(s: string): string
  {
    if |s| < 9 then s else s[|s| - 9..]
  }

  lemma CountLabel(n: int, unit: string)
    requires unit == " unidades" || unit == " porciones"
    ensures ParseInt(IntToString(n) + unit) == Some(n)
    ensures Suffix9(IntToString(n) + unit) == unit[|unit| - 9..]
  {
    ParseIntOfIntToStringThen(n, unit);
    SuffixOfConcat(IntToString(n), unit, 9);
  }

  lemma SuffixOfConcat(a: string, b: string, k: nat)
    requires k <= |b|
    ensures (a + b)[|a + b| - k..] == b[|b| - k..]
  {
    var s := a + b;
    assert s[|a|..] == b;
    assert s[|s| - k..] == s[|a|..][|b| - k..];
  }

  function ItemOf(r: Record, products: map<Id, Product>): CriticalItem
  {
    CriticalItem(ProductLabel(if r.product in products then Some(products[r.product]) else None), StockLabel(r))
  }

  function CriticalItems(records: seq<Record>, products: map<Id, Product>): (items: seq<CriticalItem>)
    ensures |items| == |records|
    ensures forall i :: 0 <= i < |records| ==> items[i] == ItemOf(records[i], products)
  {
    seq(|records|, i requires 0 <= i < |records| => ItemOf(records[i], products))
  }

  // ---------------------------------------------------------------- kpis

  const KpisClubRequired := "El clubId es requerido"

  /** A closed time window `[start, end]`; the calendar arithmetic that produces it is not modelled. */
  datatype Window = Window(start: int, end: int)

  predicate InWindow(w: Window, t: int)
  {
    w.start <= t <= w.end
  }

  /** `reduce((sum, sale) => sum + sale.total, 0)` over the club's sales created in the window. */
  function SalesTotal(sales: seq<Sale>, clubId: Id, w: Window): int
  {
    if sales == [] then 0
    else
      var s := sales[|sales| - 1];
      SalesTotal(sales[..|sales| - 1], clubId, w) + (if s.clubId == clubId && InWindow(w, s.createdAt) then s.total else 0)
  }

  /** The same sum over the club's expenses dated in the window. */
  function ExpensesTotal(expenses: seq<Expense>, clubId: Id, w: Window): int
  {
    if expenses == [] then 0
    else
      var e := expenses[|expenses| - 1];
      ExpensesTotal(expenses[..|expenses| - 1], clubId, w) + (if e.clubId == clubId && InWindow(w, e.date) then e.amount else 0)
  }

  /** Growth over the previous period: 0 unless the previous value is positive, a ratio otherwise. */
  datatype Growth = NoGrowth | Ratio(change: int, base: int)

  function GrowthOf(current: int, previous: int): (g: Growth)
    ensures g.NoGrowth? <==> previous <= 0
    ensures g.Ratio? ==> g.base > 0 && g.base + g.change == current
  {
    if previous > 0 then Ratio(current - previous, previous) else NoGrowth
  }

  datatype Kpis = Kpis(
    salesTotal: int, expensesTotal: int, netProfit: int,
    salesGrowth: Growth, netProfitGrowth: Growth,
    inventoryCritical: nat, inventoryItems: seq<CriticalItem>)

  /** `GET /kpis`; `None` is the 400 for a missing clubId. */
  function DashboardKpis(
    clubId: Option<Id>, sales: seq<Sale>, expenses: seq<Expense>, records: seq<Record>,
    products: map<Id, Product>, current: Window, previous: Window): (r: Option<Kpis>)
    ensures r.None? <==> clubId.None?
    ensures r.Some? ==> (
      var k := r.value;
      var critical := CriticalOf(records, clubId.value);
      && k.netProfit == k.salesTotal - k.expensesTotal
      && k.inventoryCritical == |k.inventoryItems| == |critical|
      && (forall i :: 0 <= i < |critical| ==> k.inventoryItems[i].stock == StockLabel(critical[i]))
      && (SalesTotal(sales, clubId.value, previous) <= 0 ==> k.salesGrowth.NoGrowth?)
      && (SalesTotal(sales, clubId.value, previous) - ExpensesTotal(expenses, clubId.value, previous) <= 0
          ==> k.netProfitGrowth.NoGrowth?))
  {
    match clubId
    case None => None
    case Some(c) =>
      var salesNow := SalesTotal(sales, c, current);
      var expensesNow := ExpensesTotal(expenses, c, current);
      var salesPrev := SalesTotal(sales, c, previous);
      var netPrev := salesPrev - ExpensesTotal(expenses, c, previous);
      var critical := CriticalOf(records, c);
      var items := CriticalItems(critical, products);
      Some(Kpis(salesNow, expensesNow, salesNow - expensesNow,
                GrowthOf(salesNow, salesPrev), GrowthOf(salesNow - expensesNow, netPrev),
                |items|, items))
  }

  // ---------------------------------------------------------------- sales vs expenses

  datatype ChartPeriod = Weekly | Monthly | Annual

  function ParseChartPeriod(s: string): Option<ChartPeriod>
  {
    if s == "weekly" then Some(Weekly)
    else if s == "monthly" then Some(Monthly)
    else if s == "annual" then Some(Annual)
    else None
  }

  function GroupingOf(p: ChartPeriod): Grouping
  {
    match p
    case Weekly => ByDay
    case Monthly => ByWeekOfMonth
    case Annual => ByMonth
  }

  /** The sales pass: each row replaces its bucket with `{sales: total, expenses: 0}`. */
  function SalesPass(g: Grouping, rows: seq<AggRow>): map<string, Bucket>
  {
    if rows == [] then map[]
    else
      var row := rows[|rows| - 1];
      SalesPass(g, rows[..|rows| - 1])[Label(g, row.group) := Bucket(row.total, 0)]
  }

  /** The expense pass: an existing bucket keeps its sales, a new one starts with sales 0. */
  function ExpensePass(m: map<string, Bucket>, g: Grouping, rows: seq<AggRow>): map<string, Bucket>
  {
    if rows == [] then m
    else
      var row := rows[|rows| - 1];
      var prior := ExpensePass(m, g, rows[..|rows| - 1]);
      var key := Label(g, row.group);
      if key in prior then prior[key := prior[key].(expenses := row.total)]
      else prior[key := Bucket(0, row.total)]
  }

  lemma {:induction false} SalesPassMeaning(g: Grouping, rows: seq<AggRow>, key: string)
    ensures key in SalesPass(g, rows) <==> LastTotal(rows, g, key).Some?
    ensures key in SalesPass(g, rows) ==> SalesPass(g, rows)[key] == Bucket(LastTotal(rows, g, key).value, 0)
  {
    if rows != [] {
      SalesPassMeaning(g, rows[..|rows| - 1], key);
    }
  }

  lemma {:induction false} ExpensePassMeaning(m: map<string, Bucket>, g: Grouping, rows: seq<AggRow>, key: string)
    ensures key in ExpensePass(m, g, rows) <==> key in m || LastTotal(rows, g, key).Some?
    ensures key in ExpensePass(m, g, rows) ==> ExpensePass(m, g, rows)[key] == Bucket(
      if key in m then m[key].sales else 0,
      if LastTotal(rows, g, key).Some? then LastTotal(rows, g, key).value else m[key].expenses)
  {
    if rows != [] {
      ExpensePassMeaning(m, g, rows[..|rows| - 1], key);
    }
  }

  /** The two passes of the code build exactly the reference bucket map. */
  lemma PassesBuildMerged(g: Grouping, sales: seq<AggRow>, expenses: seq<AggRow>)
    ensures ExpensePass(SalesPass(g, sales), g, expenses) == Merged(g, sales, expenses)
  {
    var m := ExpensePass(SalesPass(g, sales), g, expenses);
    var r := Merged(g, sales, expenses);
    forall key
      ensures key in m <==> key in r
      ensures key in m ==> m[key] == r[key]
    {
      SalesPassMeaning(g, sales, key);
      ExpensePassMeaning(SalesPass(g, sales), g, expenses, key);
      LastTotalSomeIff(sales, g, key);
      LastTotalSomeIff(expenses, g, key);
    }
  }

  lemma SalesPassStep(g: Grouping, rows: seq<AggRow>, i: nat)
    requires i < |rows|
    ensures SalesPass(g, rows[..i + 1]) == SalesPass(g, rows[..i])[Label(g, rows[i].group) := Bucket(rows[i].total, 0)]
  {
    assert rows[..i + 1][..i] == rows[..i];
  }

  lemma ExpensePassStep(m: map<string, Bucket>, g: Grouping, rows: seq<AggRow>, j: nat)
    requires j < |rows|
    ensures var prior := ExpensePass(m, g, rows[..j]);
      var key := Label(g, rows[j].group);
      ExpensePass(m, g, rows[..j + 1])
        == if key in prior then prior[key := prior[key].(expenses := rows[j].total)] else prior[key := Bucket(0, rows[j].total)]
  {
    assert rows[..j + 1][..j] == rows[..j];
  }

  /** The two `forEach` loops that fill the `map` object. */
  method MergeBuckets(g: Grouping, sales: seq<AggRow>, expenses: seq<AggRow>) returns (m: map<string, Bucket>)
    ensures m == Merged(g, sales, expenses)
  {
    m := map[];
    for i := 0 to |sales|
      invariant m == SalesPass(g, sales[..i])
    {
      SalesPassStep(g, sales, i);
      m := m[Label(g, sales[i].group) := Bucket(sales[i].total, 0)];
    }
    assert sales[..|sales|] == sales;
    ghost var afterSales := m;
    for j := 0 to |expenses|
      invariant m == ExpensePass(afterSales, g, expenses[..j])
    {
      ExpensePassStep(afterSales, g, expenses, j);
      var key := Label(g, expenses[j].group);
      if key in m {
        m := m[key := m[key].(expenses := expenses[j].total)];
      } else {
        m := m[key := Bucket(0, expenses[j].total)];
      }
    }
    assert expenses[..|expenses|] == expenses;
    PassesBuildMerged(g, sales, expenses);
  }

  datatype ChartRow = ChartRow(name: string, sales: int, expenses: int)

  /** A fixed list of labels, each with `map[label]?.sales || 0` and `map[label]?.expenses || 0`. */
  function FixedRows(m: map<string, Bucket>, names: seq<string>): (rows: seq<ChartRow>)
    ensures |rows| == |names|
    ensures forall i :: 0 <= i < |names| ==> rows[i] == ChartRow(names[i], SalesOr0(m, names[i]), ExpensesOr0(m, names[i]))
  {
    seq(|names|, i requires 0 <= i < |names| => ChartRow(names[i], SalesOr0(m, names[i]), ExpensesOr0(m, names[i])))
  }

  /** The weeks among 1..n that have a bucket, in ascending order. */
  function PresentWeeks(m: map<string, Bucket>, n: nat): (ws: seq<int>)
    ensures forall i :: 0 <= i < |ws| ==> 1 <= ws[i] <= n && WeekName(ws[i]) in m
    ensures forall i, j :: 0 <= i < j < |ws| ==> ws[i] < ws[j]
    ensures forall w :: 1 <= w <= n && WeekName(w) in m ==> w in ws
  {
    if n == 0 then [] else PresentWeeks(m, n - 1) + (if WeekName(n) in m then [n] else [])
  }

  function WeekRows(m: map<string, Bucket>, ws: seq<int>): (rows: seq<ChartRow>)
    requires forall i :: 0 <= i < |ws| ==> WeekName(ws[i]) in m
    ensures |rows| == |ws|
  {
    seq(|ws|, i requires 0 <= i < |ws| => ChartRow(WeekName(ws[i]), m[WeekName(ws[i])].sales, m[WeekName(ws[i])].expenses))
  }

  lemma WeekRowsAppend(m: map<string, Bucket>, ws: seq<int>, w: int)
    requires forall i :: 0 <= i < |ws| ==> WeekName(ws[i]) in m
    requires WeekName(w) in m
    ensures WeekRows(m, ws + [w])
         == WeekRows(m, ws) + [ChartRow(WeekName(w), m[WeekName(w)].sales, m[WeekName(w)].expenses)]
  {
  }

  /** Weeks 1 to 5, each pushed only when its bucket exists. */
  method MonthlyRows(m: map<string, Bucket>) returns (rows: seq<ChartRow>)
    ensures rows == WeekRows(m, PresentWeeks(m, 5))
  {
    rows := [];
    for w := 1 to 6
      invariant rows == WeekRows(m, PresentWeeks(m, w - 1))
    {
      var key := WeekName(w);
      ghost var before := PresentWeeks(m, w - 1);
      if key in m {
        assert PresentWeeks(m, w) == before + [w];
        WeekRowsAppend(m, before, w);
        rows := rows + [ChartRow(key, m[key].sales, m[key].expenses)];
      } else {
        assert PresentWeeks(m, w) == before;
      }
    }
  }

  const ChartParamsRequired := "clubId y period son requeridos"
  const InvalidPeriod := "Periodo inválido"

  datatype ChartResponse = Chart(rows: seq<ChartRow>) | ChartBadRequest(message: string)

  /** `GET /sales-vs-expenses` on the two aggregate results. */
  method SalesVsExpenses(clubId: Option<Id>, period: Option<string>, sales: seq<AggRow>, expenses: seq<AggRow>)
    returns (r: ChartResponse)
    ensures clubId.None? || period.None? || period.value == "" ==> r == ChartBadRequest(ChartParamsRequired)
    ensures clubId.Some? && period.Some? && period.value != "" && ParseChartPeriod(period.value).None?
      ==> r == ChartBadRequest(InvalidPeriod)
    ensures clubId.Some? && period.Some? && ParseChartPeriod(period.value) == Some(Weekly)
      ==> r == Chart(FixedRows(Merged(ByDay, sales, expenses), DayOrder))
    ensures clubId.Some? && period.Some? && ParseChartPeriod(period.value) == Some(Monthly)
      ==> (var m := Merged(ByWeekOfMonth, sales, expenses); r == Chart(WeekRows(m, PresentWeeks(m, 5))))
    ensures clubId.Some? && period.Some? && ParseChartPeriod(period.value) == Some(Annual)
      ==> r == Chart(FixedRows(Merged(ByMonth, sales, expenses), MonthNames))
  {
    if clubId.None? || period.None? || period.value == "" {
      return ChartBadRequest(ChartParamsRequired);
    }
    var p := ParseChartPeriod(period.value);
    if p.None? {
      return ChartBadRequest(InvalidPeriod);
    }
    var m := MergeBuckets(GroupingOf(p.value), sales, expenses);
    match p.value {
      case Weekly => r := Chart(FixedRows(m, DayOrder));
      case Monthly =>
        var rows := MonthlyRows(m);
        r := Chart(rows);
      case Annual => r := Chart(FixedRows(m, MonthNames));
    }
  }

  /** Weekly rows: Monday to Sunday, each with the last sales and expense totals of that day, 0 when absent. */
  lemma WeeklyShape(sales: seq<AggRow>, expenses: seq<AggRow>, i: int)
    requires 0 <= i < 7
    ensures var rows := FixedRows(Merged(ByDay, sales, expenses), DayOrder);
      |rows| == 7 && rows[i] == ChartRow(DayOrder[i], LastTotal(sales, ByDay, DayOrder[i]).GetOr(0),
                                         LastTotal(expenses, ByDay, DayOrder[i]).GetOr(0))
  {
    var key := DayOrder[i];
    LastTotalSomeIff(sales, ByDay, key);
    LastTotalSomeIff(expenses, ByDay, key);
  }

  /** Annual rows: January to December, each with the month's last totals, 0 when absent. */
  lemma AnnualShape(sales: seq<AggRow>, expenses: seq<AggRow>, i: int)
    requires 0 <= i < 12
    ensures var rows := FixedRows(Merged(ByMonth, sales, expenses), MonthNames);
      |rows| == 12 && rows[i] == ChartRow(MonthNames[i], LastTotal(sales, ByMonth, MonthNames[i]).GetOr(0),
                                          LastTotal(expenses, ByMonth, MonthNames[i]).GetOr(0))
  {
    var key := MonthNames[i];
    LastTotalSomeIff(sales, ByMonth, key);
    LastTotalSomeIff(expenses, ByMonth, key);
  }

  /** Monthly rows: a week among 1..5 is listed iff some sales or expense row falls in it. */
  lemma MonthlyShape(sales: seq<AggRow>, expenses: seq<AggRow>, w: int)
    requires 1 <= w <= 5
    ensures var m := Merged(ByWeekOfMonth, sales, expenses);
      w in PresentWeeks(m, 5)
      <==> LastTotal(sales, ByWeekOfMonth, WeekName(w)).Some? || LastTotal(expenses, ByWeekOfMonth, WeekName(w)).Some?
  {
    LastTotalSomeIff(sales, ByWeekOfMonth, WeekName(w));
    LastTotalSomeIff(expenses, ByWeekOfMonth, WeekName(w));
  }
}
