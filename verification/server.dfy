/** The Flask routes `/variables`, `/correlation` and `/detailed_analysis`
    (app.py). Each route is a function of the loaded datasets and the request;
    the coefficients come from an oracle standing for pandas. */
module Server {
  import opened Common
  import opened Seqs
  import opened Dataframe
  import opened StrongPairs
  import opened Rolling

  /** `/variables` answers `{variables, min_date, max_date}`. */
  datatype VariablesReply = VariablesReply(variables: seq<string>, minDate: Date, maxDate: Date)

  /** `get_variables`: the dataset named by the `dataset` query argument
      (default `Marketing`); its variable columns in header order and its
      first and last date, or status 400 for an unknown name. */
  function GetVariables(datasets: map<string, Frame>, dataset: Option<string>): (reply: Reply<VariablesReply>)
    requires ValidDatasets(datasets)
    ensures reply.Ok? <==> dataset.GetOr("Marketing") in datasets
    ensures reply.Err? ==> reply == Err(400, InvalidDataset)
    ensures reply.Ok? ==>
              var f := datasets[dataset.GetOr("Marketing")];
              && reply.body.variables == Variables(f.columns)
              && (forall c :: c in reply.body.variables <==> c in f.columns && c != "Date" && c != "Group")
              && (forall r :: r in f.rows ==> reply.body.minDate <= r.date <= reply.body.maxDate)
              && (exists r :: r in f.rows && r.date == reply.body.minDate)
              && (exists r :: r in f.rows && r.date == reply.body.maxDate)
  {
    var name := dataset.GetOr("Marketing");
    if name in datasets then
      var df := datasets[name];
      var lo, hi := MinDate(df.rows), MaxDate(df.rows);
      assert forall r :: r in df.rows ==> lo <= r.date <= hi;
      Ok(VariablesReply(Variables(df.columns), lo, hi))
    else
      Err(400, InvalidDataset)
  }

  /** The JSON body of a `/correlation` request. `date_range` holds the two
      strings of the date inputs. */
  datatype CorrelationRequest = CorrelationRequest(
    dataset: Field<string>,
    variables: Field<seq<string>>,
    dateRange: Field<seq<string>>,
    group: Field<string>,
    corrMethod: Field<string>,
    moderator: Field<string>)

  /** The JSON body `/correlation` answers with; `adjusted` is `None` for `null`. */
  datatype CorrelationReply = CorrelationReply(
    matrix: Matrix,
    strong: seq<StrongCorrelation>,
    adjusted: Option<map<string, Coeff>>)

  /** `if moderator and moderator not in selected_vars: selected_vars.append(moderator)`. */
  function WithModerator(selected: seq<string>, moderator: Option<string>): (vars: seq<string>)
    ensures |selected| <= |vars| <= |selected| + 1
    ensures vars[..|selected|] == selected
    ensures |vars| == |selected| + 1 <==> Truthy(moderator) && moderator.value !in selected
    ensures Truthy(moderator) ==> moderator.value in vars
    ensures forall v :: v in vars <==> v in selected || (Truthy(moderator) && v == moderator.value)
  {
    if Truthy(moderator) && moderator.value !in selected then selected + [moderator.value]
    else selected
  }

  /** Appending the moderator a second time changes nothing. */
  lemma WithModeratorIdempotent(selected: seq<string>, moderator: Option<string>)
    ensures WithModerator(WithModerator(selected, moderator), moderator) == WithModerator(selected, moderator)
  {
  }

  /** `group and group != "All"`: the group filter is on. */
  predicate GroupSelected(group: Option<string>) {
    Truthy(group) && group.value != "All"
  }

  /** The dates of a truthy `date_range` that pandas cannot read: comparing
      the `Date` column with either string raises `TypeError`. */
  predicate UnreadableRange(dateRange: seq<string>, parse: DateParser) {
    |dateRange| >= 2 && (parse(dateRange[0]).Unreadable? || parse(dateRange[1]).Unreadable?)
  }

  /** The two row filters of app.py:49-54, in that order. A one-element
      `date_range` is truthy but has no `date_range[1]`, and an unreadable
      date cannot be compared: the route raises. A date that reads as `NaT`
      compares false with every row. */
  function SelectRows(rows: seq<Row>, dateRange: seq<string>, group: Option<string>,
                      parse: DateParser): (r: Option<seq<Row>>)
    ensures r.None? <==> |dateRange| == 1 || UnreadableRange(dateRange, parse)
    ensures r.Some? ==>
              forall row :: row in r.value <==>
                && row in rows
                && (|dateRange| == 0 || Within(parse(dateRange[0]), parse(dateRange[1]), row.date))
                && (GroupSelected(group) ==> row.group == group.value)
    ensures r.Some? && |dateRange| > 0 && (parse(dateRange[0]).NaT? || parse(dateRange[1]).NaT?) ==>
              r.value == []
  {
    if |dateRange| == 1 || UnreadableRange(dateRange, parse) then None
    else
      var byDate := if |dateRange| > 0 then DateFilter(rows, parse(dateRange[0]), parse(dateRange[1])) else rows;
      Some(if GroupSelected(group) then GroupFilter(byDate, group.value) else byDate)
  }

  /** Both filters keep the rows in file order: selecting from two runs of
      rows is selecting from each and concatenating. */
  lemma SelectRowsConcat(a: seq<Row>, b: seq<Row>, dateRange: seq<string>, group: Option<string>,
                         parse: DateParser)
    requires |dateRange| != 1 && !UnreadableRange(dateRange, parse)
    ensures SelectRows(a + b, dateRange, group, parse).value ==
            SelectRows(a, dateRange, group, parse).value + SelectRows(b, dateRange, group, parse).value
  {
    var byDate, byDateA, byDateB := a + b, a, b;
    if |dateRange| > 0 {
      var lo, hi := parse(dateRange[0]), parse(dateRange[1]);
      byDate, byDateA, byDateB := DateFilter(a + b, lo, hi), DateFilter(a, lo, hi), DateFilter(b, lo, hi);
      FilterConcat(a, b, (r: Row) => Within(lo, hi, r.date));
    }
    assert byDate == byDateA + byDateB;
    if GroupSelected(group) {
      FilterConcat(byDateA, byDateB, (r: Row) => r.group == group.value);
    }
  }

  /** `subset.corr(method=method).to_dict()`: one entry per pair of selected
      variables. */
  function CorrelationMatrix(subset: seq<Row>, corrMethod: string, vars: seq<string>,
                             corr: Coefficient): (m: Matrix)
    ensures Covers(m, vars)
    ensures forall a :: a in m <==> a in vars
    ensures forall a :: a in m ==> forall b :: b in m[a] <==> b in vars
    ensures forall a, b :: a in vars && b in vars ==> m[a][b] == corr(subset, corrMethod, a, b)
  {
    map a | a in vars :: map b | b in vars :: corr(subset, corrMethod, a, b)
  }

  /** The name occurs at least twice in the list. */
  predicate Repeated(vars: seq<string>, v: string) {
    v in vars && v in vars[Pos(vars, v) + 1..]
  }

  /** `adjusted_correlations`: for each selected variable other than the
      moderator, `subset[[var, moderator]].corr().iloc[0,1]`. Selecting a
      name that occurs twice in `selected_vars` yields both copies, so
      `iloc[0,1]` then pairs the variable with itself, not with the moderator. */
  function AdjustedCorrelations(subset: seq<Row>, vars: seq<string>, moderator: string,
                                corr: Coefficient): (adj: map<string, Coeff>)
    ensures forall v :: v in adj <==> v in vars && v != moderator
    ensures forall v :: v in adj && !Repeated(vars, v) ==> adj[v] == corr(subset, "pearson", v, moderator)
    ensures forall v :: v in adj && Repeated(vars, v) ==> adj[v] == corr(subset, "pearson", v, v)
  {
    map v | v in vars && v != moderator ::
      corr(subset, "pearson", v, if Repeated(vars, v) then v else moderator)
  }

  /** `date_range`: a `null` value is falsy like the empty list. */
  function DateRange(req: CorrelationRequest): seq<string> {
    req.dateRange.Get(Some([])).GetOr([])
  }

  /** `selected_vars` after the moderator step; a `null` `variables` has none. */
  function SelectedVariables(req: CorrelationRequest): (vars: Option<seq<string>>)
    ensures vars.None? <==> req.variables.Null?
  {
    match req.variables.Get(Some([]))
    case None => None
    case Some(selected) => Some(WithModerator(selected, req.moderator.Get(None)))
  }

  /** The route runs past its lookups, filters and `corr` call without raising. */
  predicate CorrelationSucceeds(datasets: map<string, Frame>, req: CorrelationRequest, parse: DateParser) {
    && req.dataset.Given? && req.dataset.value in datasets
    && SelectRows(datasets[req.dataset.value].rows, DateRange(req), req.group.Get(None), parse).Some?
    && SelectedVariables(req).Some?
    && (forall v :: v in SelectedVariables(req).value ==> v in Variables(datasets[req.dataset.value].columns))
    && KnownMethod(req.corrMethod.Get(Some("pearson")))
  }

  /** `subset`: the filtered rows with a value in every selected column. */
  function Subset(datasets: map<string, Frame>, req: CorrelationRequest, parse: DateParser): seq<Row>
    requires CorrelationSucceeds(datasets, req, parse)
  {
    DropMissing(SelectRows(datasets[req.dataset.value].rows, DateRange(req), req.group.Get(None), parse).value,
                SelectedVariables(req).value)
  }

  /** The `/correlation` route (app.py:34-90). */
  method Correlation(datasets: map<string, Frame>, req: CorrelationRequest, corr: Coefficient,
                     parse: DateParser)
    returns (reply: Reply<CorrelationReply>)
    requires ValidDatasets(datasets)
    ensures reply == Err(400, InvalidDataset) <==> !req.dataset.Given? || req.dataset.value !in datasets
    ensures reply.Ok? <==> CorrelationSucceeds(datasets, req, parse)
    ensures reply.Err? ==> reply.status == 400 || reply == Err(500, InternalServerError)
    ensures req.dataset.Given? && req.dataset.value in datasets && req.variables.Null? ==>
              reply == Err(500, InternalServerError)
    ensures reply.Ok? ==>
              var vars, subset := SelectedVariables(req).value, Subset(datasets, req, parse);
              && reply.body.matrix == CorrelationMatrix(subset, req.corrMethod.Get(Some("pearson")).value, vars, corr)
              && StrongSpec(vars, reply.body.matrix, reply.body.strong)
              && (reply.body.adjusted.None? <==> !Truthy(req.moderator.Get(None)))
              && (reply.body.adjusted.Some? ==>
                    reply.body.adjusted.value == AdjustedCorrelations(subset, vars, req.moderator.value, corr))
  {
    var datasetName := req.dataset.Get(None);
    if datasetName.None? || datasetName.value !in datasets {
      return Err(400, InvalidDataset);
    }
    var df := datasets[datasetName.value];
    var selectedVars := req.variables.Get(Some([]));
    var dateRange := req.dateRange.Get(Some([])).GetOr([]);
    var group := req.group.Get(None);
    var corrMethod := req.corrMethod.Get(Some("pearson"));
    var moderator := req.moderator.Get(None);

    var rows := SelectRows(df.rows, dateRange, group, parse);
    if rows.None? {
      return Err(500, InternalServerError);
    }
    if selectedVars.None? {
      // `moderator not in None` or `df[None]` raises.
      return Err(500, InternalServerError);
    }
    var vars := WithModerator(selectedVars.value, moderator);
    assert SelectedVariables(req) == Some(vars);
    if exists v :: v in vars && v !in Variables(df.columns) {
      return Err(500, InternalServerError);
    }
    if !KnownMethod(corrMethod) {
      return Err(500, InternalServerError);
    }
    var subset := DropMissing(rows.value, vars);
    assert CorrelationSucceeds(datasets, req, parse) && subset == Subset(datasets, req, parse);
    var correlationMatrix := CorrelationMatrix(subset, corrMethod.value, vars, corr);
    var adjusted: Option<map<string, Coeff>> := None;
    if Truthy(moderator) {
      assert moderator.value == req.moderator.value;
      adjusted := Some(AdjustedCorrelations(subset, vars, moderator.value, corr));
    }
    var strong := StrongCorrelations(vars, correlationMatrix);
    reply := Ok(CorrelationReply(correlationMatrix, strong, adjusted));
  }

  /** The JSON body of a `/detailed_analysis` request. */
  datatype DetailRequest = DetailRequest(
    dataset: Field<string>,
    var1: Field<string>,
    var2: Field<string>,
    corrMethod: Field<string>)

  /** `{analysis_data, var1, var2}`. */
  datatype DetailReply = DetailReply(analysisData: seq<Record>, var1: string, var2: string)

  /** `data.get("dataset", "Marketing")`: absent is `Marketing`, `null` is `None`. */
  function DetailDataset(req: DetailRequest): Option<string> {
    req.dataset.Get(Some("Marketing"))
  }

  /** Both requested names are variable columns of the dataset. */
  predicate PairSelectable(f: Frame, req: DetailRequest) {
    && req.var1.Given? && req.var1.value in Variables(f.columns)
    && req.var2.Given? && req.var2.value in Variables(f.columns)
  }

  /** The records of the walk over the date-sorted rows. */
  function DetailRecords(f: Frame, var1: string, var2: string, corrMethod: string,
                         corr: Coefficient): seq<Record>
  {
    var sorted := SortByDate(f.rows);
    Walk(sorted, var1, var2, corrMethod, corr, |sorted|)
  }

  /** The `/detailed_analysis` route (app.py:92-122). The windows are walked
      over the rows sorted by date; an empty `rolling_corr` makes a frame
      without a `Date` column, and the route raises. */
  method DetailedAnalysis(datasets: map<string, Frame>, req: DetailRequest, corr: Coefficient)
    returns (reply: Reply<DetailReply>)
    requires ValidDatasets(datasets)
    ensures reply == Err(400, InvalidDataset) <==>
              DetailDataset(req).None? || DetailDataset(req).value !in datasets
    ensures reply.Err? ==> reply.status == 400 || reply == Err(500, InternalServerError)
    ensures reply.Ok? <==>
              && DetailDataset(req).Some? && DetailDataset(req).value in datasets
              && PairSelectable(datasets[DetailDataset(req).value], req)
              && KnownMethod(req.corrMethod.Get(Some("pearson")))
              && |DetailRecords(datasets[DetailDataset(req).value], req.var1.value, req.var2.value,
                                req.corrMethod.Get(Some("pearson")).value, corr)| > 0
    ensures reply.Ok? ==>
              var f := datasets[DetailDataset(req).value];
              && reply.body.analysisData ==
                 DropNaN(DetailRecords(f, req.var1.value, req.var2.value, req.corrMethod.Get(Some("pearson")).value, corr))
              && reply.body.var1 == req.var1.value && reply.body.var2 == req.var2.value
              && (forall r :: r in reply.body.analysisData ==> r.value.Num?)
              && (forall z1, z2 :: 0 <= z1 < z2 < |reply.body.analysisData| ==>
                    reply.body.analysisData[z1].date <= reply.body.analysisData[z2].date)
  {
    var name := req.dataset.Get(Some("Marketing"));
    if name.None? || name.value !in datasets {
      return Err(400, InvalidDataset);
    }
    var df := datasets[name.value];
    var corrMethod := req.corrMethod.Get(Some("pearson"));
    var dfSorted := SortByDate(df.rows);
    if !PairSelectable(df, req) {
      // The first window looks the name up and raises.
      return Err(500, InternalServerError);
    }
    if !KnownMethod(corrMethod) {
      // The first complete window's `corr` raises; with none, the empty
      // `rolling_corr` does.
      return Err(500, InternalServerError);
    }
    var var1, var2 := req.var1.value, req.var2.value;
    var rollingCorr := RollingWalk(dfSorted, var1, var2, corrMethod.value, corr);
    if |rollingCorr| == 0 {
      return Err(500, InternalServerError);
    }
    assert rollingCorr == DetailRecords(df, var1, var2, corrMethod.value, corr);
    var analysisData := DropNaN(rollingCorr);
    WalkAscending(dfSorted, var1, var2, corrMethod.value, corr, |dfSorted|);
    DropNaNAscending(rollingCorr);
    reply := Ok(DetailReply(analysisData, var1, var2));
  }
}
