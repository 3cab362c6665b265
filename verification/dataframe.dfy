/** The pandas data frames the Flask server holds, and the row selections
    `correlation` applies to them before any coefficient is computed. */
module Dataframe {
  import opened Common
  import opened Seqs

  /** A calendar date, as a day number: the `Date` column is parsed when the
      CSV file is loaded and compared as a date from then on. */
  type Date = int

  /** A request date as pandas reads it when it compares the `Date` column
      with a string: a day, `NaT` (the empty string), or text it cannot read. */
  datatype Stamp = NaT | Day(day: Date) | Unreadable

  /** pandas' conversion of a date string to a timestamp. */
  type DateParser = string -> Stamp

  /** One CSV row: its `Date`, its `Group` and the cells of the variable
      columns (a cell that is absent or `None` is a missing value). */
  datatype Row = Row(date: Date, group: string, cells: map<string, Option<real>>)

  /** A loaded dataset: the header in column order and the rows in file order. */
  datatype Frame = Frame(columns: seq<string>, rows: seq<Row>)

  /** What the shipped CSV files provide: a `Date` and a `Group` column and at
      least one row (`get_variables` drops both columns and formats the
      earliest and latest date, which fails otherwise). */
  predicate ValidFrame(f: Frame) {
    "Date" in f.columns && "Group" in f.columns && |f.rows| > 0
  }

  /** Every dataset the server has loaded is valid. */
  predicate ValidDatasets(datasets: map<string, Frame>) {
    forall name :: name in datasets ==> ValidFrame(datasets[name])
  }

  predicate Missing(row: Row, v: string) {
    v !in row.cells || row.cells[v].None?
  }

  predicate IsVariable(column: string) {
    column != "Date" && column != "Group"
  }

  /** `df.columns.drop(['Date', 'Group']).tolist()`: the header without the
      date and group columns, in header order (order: Seqs.FilterConcat). */
  function Variables(columns: seq<string>): (vars: seq<string>)
    ensures |vars| <= |columns|
    ensures forall c :: c in vars <==> c in columns && c != "Date" && c != "Group"
  {
    Filter(columns, IsVariable)
  }

  /** The header is filtered column by column: the variables of two runs of
      columns are those of each, in order, and a single column is kept exactly
      when it is neither `Date` nor `Group`. Together these fix the list. */
  lemma {:induction false} VariablesConcat(a: seq<string>, b: seq<string>, c: string)
    ensures Variables(a + b) == Variables(a) + Variables(b)
    ensures Variables([c]) == if c != "Date" && c != "Group" then [c] else []
  {
    FilterConcat(a, b, IsVariable);
    assert [c][1..] == [];
  }

  /** `lo <= date <= hi` on timestamps: a comparison with `NaT` is false. */
  predicate Within(lo: Stamp, hi: Stamp, date: Date) {
    lo.Day? && hi.Day? && lo.day <= date <= hi.day
  }

  /** `df[(df['Date'] >= lo) & (df['Date'] <= hi)]`. */
  function DateFilter(rows: seq<Row>, lo: Stamp, hi: Stamp): (kept: seq<Row>)
    ensures |kept| <= |rows|
    ensures forall r :: r in kept <==> r in rows && Within(lo, hi, r.date)
  {
    Filter(rows, (r: Row) => Within(lo, hi, r.date))
  }

  /** `df[df['Group'] == group]`. */
  function GroupFilter(rows: seq<Row>, group: string): (kept: seq<Row>)
    ensures |kept| <= |rows|
    ensures forall r :: r in kept <==> r in rows && r.group == group
  {
    Filter(rows, (r: Row) => r.group == group)
  }

  /** `df[vars].dropna()`: the rows with a value in every selected column. */
  function DropMissing(rows: seq<Row>, vars: seq<string>): (kept: seq<Row>)
    ensures |kept| <= |rows|
    ensures forall r :: r in kept <==> r in rows && forall v :: v in vars ==> !Missing(r, v)
  {
    Filter(rows, (r: Row) => forall v :: v in vars ==> !Missing(r, v))
  }

  /** `dropna` keeps the rows in order. */
  lemma {:induction false} DropMissingConcat(a: seq<Row>, b: seq<Row>, vars: seq<string>)
    ensures DropMissing(a + b, vars) == DropMissing(a, vars) + DropMissing(b, vars)
  {
    FilterConcat(a, b, (r: Row) => forall v :: v in vars ==> !Missing(r, v));
  }

  /** `df['Date'].min()`. */
  function MinDate(rows: seq<Row>): (d: Date)
    requires |rows| > 0
    ensures exists i :: 0 <= i < |rows| && rows[i].date == d
    ensures forall i :: 0 <= i < |rows| ==> d <= rows[i].date
  {
    if |rows| == 1 then rows[0].date
    else
      var rest := MinDate(rows[1..]);
      if rows[0].date <= rest then rows[0].date else rest
  }

  /** `df['Date'].max()`. */
  function MaxDate(rows: seq<Row>): (d: Date)
    requires |rows| > 0
    ensures exists i :: 0 <= i < |rows| && rows[i].date == d
    ensures forall i :: 0 <= i < |rows| ==> rows[i].date <= d
  {
    if |rows| == 1 then rows[0].date
    else
      var rest := MaxDate(rows[1..]);
      if rest <= rows[0].date then rows[0].date else rest
  }

  /** pandas' correlation of columns `a` and `b` over `rows` by the named
      method (`pearson`, `kendall`, `spearman`); the arithmetic is not modelled,
      only which rows and columns it is given. */
  type Coefficient = (seq<Row>, string, string, string) -> Coeff

  /** The method names `DataFrame.corr` and `Series.corr` accept; any other
      name, `None` included, raises `ValueError`. */
  predicate KnownMethod(corrMethod: Option<string>) {
    corrMethod.Some? && corrMethod.value in {"pearson", "kendall", "spearman"}
  }
}
