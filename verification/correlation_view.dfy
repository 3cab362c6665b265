/** correlation.js: reading the selection when "update" is clicked, sending
    it to `/correlation`, and drawing the answer (heatmap, strong-pair list,
    moderator chart). */
module CorrelationView {
  import opened Common
  import opened Seqs
  import opened Page
  import Loader
  import Dataframe
  import Server

  /** The JSON body POSTed to `/correlation`. */
  datatype CorrelationPayload = CorrelationPayload(dataset: string, variables: seq<string>,
                                                   dateRange: seq<string>, group: string,
                                                   corrMethod: string, moderator: string)

  /** The `/correlation` answer as the browser receives it. */
  datatype CorrelationData = CorrelationData(error: Option<string>,
                                             matrix: map<string, map<string, real>>,
                                             strong: seq<StrongCorrelation>,
                                             adjusted: Option<map<string, real>>)

  /** Values of the checked `.var-checkbox` inputs, in document order. */
  function CheckedValues(boxes: seq<Checkbox>): (values: seq<string>)
    ensures |values| <= |boxes|
    ensures forall i :: 0 <= i < |boxes| && boxes[i].checked ==> boxes[i].value in values
    ensures forall v :: v in values ==> Checkbox(v, true) in boxes
  {
    if boxes == [] then []
    else (if boxes[0].checked then [boxes[0].value] else []) + CheckedValues(boxes[1..])
  }

  /** The checked values of two runs of boxes come out in document order. */
  lemma {:induction false} CheckedValuesConcat(a: seq<Checkbox>, b: seq<Checkbox>)
    ensures CheckedValues(a + b) == CheckedValues(a) + CheckedValues(b)
  {
    if a == [] {
      assert a + b == b;
    } else {
      assert (a + b)[0] == a[0];
      assert (a + b)[1..] == a[1..] + b;
      CheckedValuesConcat(a[1..], b);
    }
  }

  /** Right after the variables are loaded nothing is selected. */
  lemma {:induction false} FreshBoxesUnchecked(vars: seq<string>)
    ensures CheckedValues(Loader.CheckboxesFor(vars)) == []
  {
    if vars != [] {
      assert Loader.CheckboxesFor(vars)[1..] == Loader.CheckboxesFor(vars[1..]);
      FreshBoxesUnchecked(vars[1..]);
    }
  }

  /** The update button's click handler (correlation.js:1-14) up to the
      request it sends: the globals take the controls' values, then the body
      is built from the globals. */
  method OnUpdateClick(p: Page) returns (body: CorrelationPayload)
    modifies p`selectedVariables, p`corrMethod, p`dateRange, p`group, p`moderator
    ensures p.selectedVariables == CheckedValues(p.checkboxes)
    ensures p.corrMethod == p.methodChoice && p.group == p.groupChoice
    ensures p.dateRange == [p.startDate, p.endDate] && p.moderator == p.moderatorChoice
    ensures body == CorrelationPayload(p.selectedDataset, p.selectedVariables, p.dateRange,
                                       p.group, p.corrMethod, p.moderator)
  {
    p.selectedVariables := CheckedValues(p.checkboxes);
    p.corrMethod := p.methodChoice;
    p.dateRange := [p.startDate, p.endDate];
    p.group := p.groupChoice;
    p.moderator := p.moderatorChoice;
    body := CorrelationPayload(p.selectedDataset, p.selectedVariables, p.dateRange,
                               p.group, p.corrMethod, p.moderator);
  }

  /** Every pair of `vars` has a value in `m`. */
  predicate MatrixCovers(m: map<string, map<string, real>>, vars: seq<string>) {
    forall a, b :: a in vars && b in vars ==> a in m && b in m[a]
  }

  /** Pixels per variable of the heatmap's side. */
  const CellSize := 80

  /** `variables.map(v2 => ({v1, v2, value}))` for one `v1`, whose matrix
      row is `line`. */
  function RowCells(v1: string, vars: seq<string>, line: map<string, real>): (row: seq<HeatCell>)
    requires forall j :: 0 <= j < |vars| ==> vars[j] in line
    ensures |row| == |vars|
    ensures forall j :: 0 <= j < |vars| ==> row[j] == HeatCell(v1, vars[j], line[vars[j]])
  {
    seq(|vars|, j requires 0 <= j < |vars| => HeatCell(v1, vars[j], line[vars[j]]))
  }

  /** The `flatMap` over the outer variables `outer`, each paired with all of
      `vars`. */
  function Cells(outer: seq<string>, vars: seq<string>, m: map<string, map<string, real>>): (cells: seq<HeatCell>)
    requires forall a, b :: a in outer && b in vars ==> a in m && b in m[a]
    ensures |cells| == |outer| * |vars|
  {
    if outer == [] || vars == [] then []
    else
      assert |outer| * |vars| == |vars| + (|outer| - 1) * |vars|;
      assert outer[0] in outer && vars[0] in vars && forall j :: 0 <= j < |vars| ==> vars[j] in vars;
      RowCells(outer[0], vars, m[outer[0]]) + Cells(outer[1..], vars, m)
  }

  /** Cell `i * |vars| + j` pairs the `i`-th outer variable with the `j`-th
      variable. */
  lemma {:induction false} CellAt(outer: seq<string>, vars: seq<string>, m: map<string, map<string, real>>,
                                  i: nat, j: nat)
    requires forall a, b :: a in outer && b in vars ==> a in m && b in m[a]
    requires i < |outer| && j < |vars|
    ensures i * |vars| + j < |Cells(outer, vars, m)|
    ensures outer[i] in m && vars[j] in m[outer[i]]
    ensures Cells(outer, vars, m)[i * |vars| + j] == HeatCell(outer[i], vars[j], m[outer[i]][vars[j]])
  {
    var n := |vars|;
    assert outer[i] in outer && vars[j] in vars;
    if i > 0 {
      CellAt(outer[1..], vars, m, i - 1, j);
      assert i * n + j == n + ((i - 1) * n + j);
      assert |outer| * n == n + (|outer| - 1) * n;
    }
  }

  /** `heatmapData` (correlation.js:88): one cell per ordered pair of
      variables. */
  function HeatmapCells(vars: seq<string>, m: map<string, map<string, real>>): (cells: seq<HeatCell>)
    requires MatrixCovers(m, vars)
    ensures |cells| == |vars| * |vars|
  {
    Cells(vars, vars, m)
  }

  /** The heatmap lists the pairs first-variable-major: cell `i * n + j` is
      (`vars[i]`, `vars[j]`) with its matrix entry. */
  lemma HeatmapCellAt(vars: seq<string>, m: map<string, map<string, real>>, i: nat, j: nat)
    requires MatrixCovers(m, vars)
    requires i < |vars| && j < |vars|
    ensures i * |vars| + j < |HeatmapCells(vars, m)|
    ensures vars[i] in m && vars[j] in m[vars[i]]
    ensures HeatmapCells(vars, m)[i * |vars| + j] == HeatCell(vars[i], vars[j], m[vars[i]][vars[j]])
  {
    CellAt(vars, vars, m, i, j);
  }

  /** `drawCorrelationMatrix` (correlation.js:48-111): the old chart is
      replaced; both axes list `vars` in order; the chart is 80 pixels per
      variable each way. */
  method DrawCorrelationMatrix(p: Page, m: map<string, map<string, real>>, vars: seq<string>)
    requires MatrixCovers(m, vars)
    modifies p`matrixDomain, p`matrixCells, p`matrixSize
    ensures p.matrixDomain == vars && p.matrixSize == CellSize * |vars|
    ensures p.matrixCells == HeatmapCells(vars, m)
  {
    p.matrixDomain := vars;
    p.matrixSize := |vars| * CellSize;
    p.matrixCells := HeatmapCells(vars, m);
  }

  /** Row height, in pixels, of the moderator chart. */
  const BarSize := 40

  predicate NotModerator(moderator: string, v: string) {
    v != moderator
  }

  /** `variables.filter(v => v !== moderator)`: the moderator chart's rows. */
  function AdjustedDomain(vars: seq<string>, moderator: string): (rows: seq<string>)
    ensures |rows| <= |vars| && moderator !in rows
    ensures forall v :: v in rows <==> v in vars && v != moderator
  {
    Filter(vars, v => NotModerator(moderator, v))
  }

  /** Without the moderator among the variables the rows are the variables
      themselves, in order. */
  /** The bars keep the order of the selection: the domain of two runs of
      variables is that of each, and one variable makes a bar exactly when it
      is not the moderator. Together these fix the list. */
  lemma {:induction false} AdjustedDomainConcat(a: seq<string>, b: seq<string>, moderator: string, v: string)
    ensures AdjustedDomain(a + b, moderator) == AdjustedDomain(a, moderator) + AdjustedDomain(b, moderator)
    ensures AdjustedDomain([v], moderator) == if v != moderator then [v] else []
  {
    FilterConcat(a, b, v => NotModerator(moderator, v));
    assert [v][1..] == [];
  }

  lemma AdjustedDomainKeepsOrder(vars: seq<string>, moderator: string)
    requires moderator !in vars
    ensures AdjustedDomain(vars, moderator) == vars
  {
    FilterKeepsAll(vars, v => NotModerator(moderator, v));
  }

  /** For the variables the page sent and a non-empty moderator, the keys of
      the server's `adjusted_correlations` are exactly the chart's rows: no
      bar without a row and no row without a bar. */
  lemma AdjustedBarsMatchRows(subset: seq<Dataframe.Row>, selected: seq<string>, moderator: string,
                              corr: Dataframe.Coefficient)
    requires moderator != ""
    ensures var adjusted := Server.AdjustedCorrelations(subset, Server.WithModerator(selected, Some(moderator)),
                                                        moderator, corr);
            forall v :: v in adjusted <==> v in AdjustedDomain(selected, moderator)
  {
  }

  /** `drawAdjustedCorrelations` (correlation.js:114-171): the old chart is
      replaced by one column, `moderator`, with a row per non-moderator
      variable; its height is 40 pixels per variable, the moderator
      included. */
  method DrawAdjustedCorrelations(p: Page, adjusted: map<string, real>, moderator: string, vars: seq<string>)
    modifies p`adjustedDomain, p`adjustedColumn, p`adjustedHeight, p`adjustedValues
    ensures p.adjustedDomain == AdjustedDomain(vars, moderator) && p.adjustedColumn == moderator
    ensures p.adjustedHeight == BarSize * |vars| && p.adjustedValues == adjusted
  {
    p.adjustedHeight := |vars| * BarSize;
    p.adjustedDomain := AdjustedDomain(vars, moderator);
    p.adjustedColumn := moderator;
    p.adjustedValues := adjusted;
  }

  const PositiveTint := "rgba(255, 0, 0, 0.2)"
  const NegativeTint := "rgba(0, 0, 255, 0.2)"

  /** A list item's background: red for a positive coefficient, blue
      otherwise (zero included). */
  function Tint(value: real): (color: string)
    ensures color == PositiveTint <==> value > 0.0
    ensures color == NegativeTint <==> value <= 0.0
  {
    if value > 0.0 then PositiveTint else NegativeTint
  }

  /** The `<li>` built for one strong pair. */
  function ItemFor(c: StrongCorrelation): (item: ListItem)
    ensures item.var1 == c.var1 && item.var2 == c.var2 && item.value == c.value
    ensures item.background == PositiveTint <==> c.value > 0.0
  {
    ListItem(c.var1, c.var2, c.value, Tint(c.value))
  }

  /** `listStrongCorrelations` (correlation.js:174-191): the list is emptied,
      then one item per entry is appended, in the server's order. */
  method ListStrongCorrelations(p: Page, entries: seq<StrongCorrelation>)
    modifies p`strongList
    ensures |p.strongList| == |entries|
    ensures forall i :: 0 <= i < |entries| ==> p.strongList[i] == ItemFor(entries[i])
  {
    p.strongList := [];
    for k := 0 to |entries|
      invariant |p.strongList| == k
      invariant forall i :: 0 <= i < k ==> p.strongList[i] == ItemFor(entries[i])
    {
      p.strongList := p.strongList + [ItemFor(entries[k])];
    }
  }

  /** The `/correlation` callback of `updateCorrelation`
      (correlation.js:29-44). A truthy error is shown and nothing else
      changes; otherwise the heatmap and list are redrawn for the variables
      selected when the answer arrives, and the moderator panel is shown
      exactly when the answer carries adjusted coefficients. */
  method OnCorrelationData(p: Page, data: CorrelationData)
    requires !Truthy(data.error) ==> MatrixCovers(data.matrix, p.selectedVariables)
    modifies p`alerts, p`matrixDomain, p`matrixCells, p`matrixSize, p`strongList
    modifies p`adjustedVisible, p`adjustedDomain, p`adjustedColumn, p`adjustedHeight, p`adjustedValues
    ensures Truthy(data.error) ==>
              p.alerts == old(p.alerts) + [data.error.value]
              && unchanged(p`matrixDomain, p`matrixCells, p`matrixSize, p`strongList)
              && unchanged(p`adjustedVisible, p`adjustedDomain, p`adjustedColumn, p`adjustedHeight, p`adjustedValues)
    ensures !Truthy(data.error) ==>
              p.alerts == old(p.alerts)
              && p.matrixDomain == p.selectedVariables
              && p.matrixCells == HeatmapCells(p.selectedVariables, data.matrix)
              && p.matrixSize == CellSize * |p.selectedVariables|
              && |p.strongList| == |data.strong|
              && (forall i :: 0 <= i < |data.strong| ==> p.strongList[i] == ItemFor(data.strong[i]))
              && p.adjustedVisible == data.adjusted.Some?
    ensures !Truthy(data.error) && data.adjusted.Some? ==>
              p.adjustedDomain == AdjustedDomain(p.selectedVariables, p.moderator)
              && p.adjustedColumn == p.moderator
              && p.adjustedHeight == BarSize * |p.selectedVariables|
              && p.adjustedValues == data.adjusted.value
    ensures !Truthy(data.error) && data.adjusted.None? ==>
              unchanged(p`adjustedDomain, p`adjustedColumn, p`adjustedHeight, p`adjustedValues)
  {
    if Truthy(data.error) {
      p.alerts := p.alerts + [data.error.value];
      return;
    }
    DrawCorrelationMatrix(p, data.matrix, p.selectedVariables);
    ListStrongCorrelations(p, data.strong);
    if data.adjusted.Some? {
      p.adjustedVisible := true;
      DrawAdjustedCorrelations(p, data.adjusted.value, p.moderator, p.selectedVariables);
    } else {
      p.adjustedVisible := false;
    }
  }
}
