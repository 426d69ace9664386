// Chart buckets shared by the dashboard (routes/dashboard.js) and the sales-trend report
// (routes/reportRoutes.js): how an aggregate row's group number becomes a bucket label,
// and what a correctly merged sales/expenses bucket map contains.

module Buckets {
  import opened Common
  import opened JsStrings

  /** `$dayOfWeek` numbers Sunday as 1, so this is the label table indexed by `dayNum - 1`. */
  const DayNames: seq<string> := ["Domingo", "Lunes", "Martes", "Miércoles", "Jueves", "Viernes", "Sábado"]

  /** The order in which the weekly chart lists its rows: Monday first. */
  const DayOrder: seq<string> := ["Lunes", "Martes", "Miércoles", "Jueves", "Viernes", "Sábado", "Domingo"]

  const MonthNames: seq<string> := ["Enero", "Febrero", "Marzo", "Abril", "Mayo", "Junio",
                                    "Julio", "Agosto", "Septiembre", "Octubre", "Noviembre", "Diciembre"]

  /** The property name an object gets when it is indexed with the value `undefined`. */
  const Undefined: string := "undefined"

  /** How the aggregation grouped its rows; `Ungrouped` is a report period that computes no label. */
  datatype Grouping = ByDay | ByWeekOfMonth | ByMonth | Ungrouped

  /** `names[n - 1]`, which is `undefined` outside the table. */
  function IndexName(names: seq<string>, n: int): (r: string)
    ensures 1 <= n <= |names| ==> r == names[n - 1]
    ensures !(1 <= n <= |names|) ==> r == Undefined
  {
    if 1 <= n <= |names| then names[n - 1] else Undefined
  }

  /** "Semana n", the label of the n-th week of a month. */
  function WeekName(n: int): string
  {
    "Semana " + IntToString(n)
  }

  /** The label under which an aggregate row with group number `n` is stored. */
  function Label(g: Grouping, n: int): string
  {
    match g
    case ByDay => IndexName(DayNames, n)
    case ByWeekOfMonth => WeekName(n)
    case ByMonth => IndexName(MonthNames, n)
    case Ungrouped => Undefined
  }

  /** Every week label reads back its own number, so different weeks never share a bucket. */
  lemma WeekNameInjective(i: int, j: int)
    ensures WeekName(i) == WeekName(j) <==> i == j
  {
    if WeekName(i) == WeekName(j) {
      var p := "Semana ";
      assert WeekName(i)[|p|..] == IntToString(i);
      assert WeekName(j)[|p|..] == IntToString(j);
      ParseIntOfIntToString(i);
      ParseIntOfIntToString(j);
    }
  }

  /** One row of a `$group` by bucket: the group number and the summed amount. */
  datatype AggRow = AggRow(group: int, total: int)

  /** A chart bucket. */
  datatype Bucket = Bucket(sales: int, expenses: int)

  /** The total of the LAST row whose label is `key`, if any row has it. */
  function LastTotal(rows: seq<AggRow>, g: Grouping, key: string): Option<int>
  {
    if rows == [] then None
    else if Label(g, rows[|rows| - 1].group) == key then Some(rows[|rows| - 1].total)
    else LastTotal(rows[..|rows| - 1], g, key)
  }

  /** The values `f` takes on the rows. */
  function Image(f: AggRow -> string, rows: seq<AggRow>): set<string>
  {
    set i | 0 <= i < |rows| :: f(rows[i])
  }

  /** The labels the rows are filed under. */
  function Labels(g: Grouping, rows: seq<AggRow>): set<string>
  {
    Image((row: AggRow) => Label(g, row.group), rows)
  }

  /** A label has a last total exactly when some row is filed under it. */
  lemma {:induction false} LastTotalSomeIff(rows: seq<AggRow>, g: Grouping, key: string)
    ensures LastTotal(rows, g, key).Some? <==> key in Labels(g, rows)
  {
    if rows != [] {
      var n := |rows| - 1;
      LastTotalSomeIff(rows[..n], g, key);
      LabelsSnoc(g, rows);
    }
  }

  lemma LabelsSnoc(g: Grouping, rows: seq<AggRow>)
    requires rows != []
    ensures Labels(g, rows) == Labels(g, rows[..|rows| - 1]) + {Label(g, rows[|rows| - 1].group)}
  {
    ImageSnoc((row: AggRow) => Label(g, row.group), rows);
  }

  lemma ImageSnoc(f: AggRow -> string, rows: seq<AggRow>)
    requires rows != []
    ensures Image(f, rows) == Image(f, rows[..|rows| - 1]) + {f(rows[|rows| - 1])}
  {
    var n := |rows| - 1;
    forall x | x in Image(f, rows) ensures x in Image(f, rows[..n]) + {f(rows[n])} {
      var i :| 0 <= i < |rows| && f(rows[i]) == x;
      if i < n {
        assert rows[..n][i] == rows[i];
      }
    }
    forall x | x in Image(f, rows[..n]) ensures x in Image(f, rows) {
      var i :| 0 <= i < n && f(rows[..n][i]) == x;
      assert rows[..n][i] == rows[i];
    }
    assert f(rows[n]) in Image(f, rows);
  }

  /**
   * The bucket map both charts are meant to build: a bucket for every label that occurs among
   * the sales or the expense rows, holding the last sales total and the last expense total filed
   * under it, 0 where there is none.
   */
  function Merged(g: Grouping, sales: seq<AggRow>, expenses: seq<AggRow>): map<string, Bucket>
  {
    map key | key in Labels(g, sales) + Labels(g, expenses)
      :: Bucket(LastTotal(sales, g, key).GetOr(0), LastTotal(expenses, g, key).GetOr(0))
  }

  /** The value `map[key]?.field || 0` of a missing or present bucket. */
  function SalesOr0(m: map<string, Bucket>, key: string): int
  {
    if key in m then m[key].sales else 0
  }

  function ExpensesOr0(m: map<string, Bucket>, key: string): int
  {
    if key in m then m[key].expenses else 0
  }
}
