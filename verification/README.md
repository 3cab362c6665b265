# Correlation explorer, modelled in Dafny

This project models a small web dashboard for exploring correlations between
the numeric columns of a few CSV datasets. It has two halves.

- **The Flask server** (`app.py`) answers three routes:
  - `/variables` lists a dataset's variable columns and its date span;
  - `/correlation` filters the rows by date range and group, adds an optional
    moderator variable, and answers with the correlation matrix, the
    "strong" pairs (|r| > 0.7, each unordered pair once, in nested-loop
    order), and the Pearson coefficient of every selected variable with the
    moderator;
  - `/detailed_analysis` walks 30-row rolling windows over the rows sorted by
    date and answers with one dated coefficient per window that has no
    missing value, with the NaN coefficients dropped.
- **The browser scripts** (`static/js/main.js`, `static/js/correlation.js`)
  keep the selection in page-level globals and build the dataset list, the
  variable checkboxes and the moderator options. The update button sends the
  selection, and the answer is drawn as a heatmap, a strong-pair list and a
  moderator bar chart.

How the model is built:

- Server routes are functions or methods from the loaded datasets and the
  request to a `Reply`: `Ok(body)` or `Err(status, message)`.
- A key of a JSON request body is a `Field`: absent, `null`, or given.
  `Field.Get(default)` is Python's `data.get(key, default)`, so the default
  replaces an absent key only and `null` reads as `None`.
- An exception that the route does not catch becomes
  `Err(500, "Internal Server Error")`, which is what Flask answers. The cases
  are:
  - a one-element date range, or a date pandas cannot read;
  - a `null` variable list;
  - a selected name that is not a variable column;
  - a method name other than `pearson`, `kendall` and `spearman`;
  - a rolling walk that yields no record.
- The request's date strings are read by a parser passed to the route,
  `DateParser = string -> Stamp`, where `Stamp = NaT | Day(d) | Unreadable`.
  pandas reads the empty string as `NaT`, and a comparison with `NaT` is
  false, so such a range keeps no row.
- Coefficients come from an oracle, `Coefficient = (rows, method, a, b) -> Coeff`,
  where `Coeff = NaN | Num(r)`. The arithmetic is never modelled, only which
  rows and columns each coefficient is computed from.
- The page is a `class Page` whose fields are the `main.js` globals and the
  parts of the document the scripts touch. Each handler is a method that
  names the fields it changes in its `modifies` clause and states their
  new values.
- Loops in the source are loops here, with invariants:
  - the strong-pair scan;
  - the rolling walk;
  - filling the dataset options, the checkboxes and the moderator options;
  - filling the strong-pair list.

Behaviours of the scripts worth noting:

- The click handler writes the controls into the globals, and the request
  body is built from them at once, so the body is a snapshot of the click.
  The response callback, however, reads the live `selectedVariables` and
  `moderator` globals when the answer arrives, not a snapshot taken at click
  time. `CorrelationView.OnCorrelationData` draws with whatever the page
  holds at that moment.
- The moderator panel is shown whenever `adjusted_correlations` is present.
  An empty map `{}` is truthy in JavaScript, so it still shows the panel.
- `subset[[var, moderator]]` selects every copy of a name. When a variable
  is selected twice, its adjusted value is `iloc[0,1]` of a frame whose first
  two columns are both that variable, so it is the variable's coefficient
  with itself (`Server.AdjustedCorrelations`).

## Model

| member | source | states |
|---|---|---|
| Dataframe.Variables | app.py:26 | the variables are exactly the header columns other than `Date` and `Group`, and there are no more of them than header columns |
| Dataframe.VariablesConcat | app.py:26 | the variables keep header order: the variables of two runs of columns are those of each, concatenated, and one column is kept iff it is neither `Date` nor `Group` |
| Dataframe.DateFilter | app.py:50 | a row is kept iff it is in the input and both bounds are days with the row's date between them; a `NaT` bound keeps nothing |
| Dataframe.GroupFilter | app.py:54 | a row is kept iff it is in the input and belongs to the group |
| Dataframe.DropMissing | app.py:60 | a row is kept iff it has a value in every selected column |
| Dataframe.DropMissingConcat | app.py:60 | `dropna` keeps the rows in order: dropping from two runs of rows is dropping from each and concatenating |
| Dataframe.MinDate | app.py:28 | the result is the date of some row and no row is earlier |
| Dataframe.MaxDate | app.py:29 | the result is the date of some row and no row is later |
| Server.GetVariables | app.py:21-32 | the dataset defaults to `Marketing`; an unknown name gives 400 "Invalid dataset."; otherwise the dataset's `Variables`, in header order, and the earliest and latest dates, both attained by a row |
| Server.WithModerator | app.py:56-57 | the selection is a prefix of the result; the moderator is appended iff it is non-empty and not already selected; the result's members are the selection plus the moderator |
| Server.WithModeratorIdempotent | app.py:56-57 | adding the moderator a second time changes nothing |
| Server.SelectRows | app.py:49-54 | a one-element date range or an unreadable date raises; otherwise a row is kept iff it is in the date range (when one is given) and in the group (unless the group is empty or `All`); a date read as `NaT` keeps no row |
| Server.SelectRowsConcat | app.py:49-54 | the filters keep file order: filtering two runs of rows is filtering each and concatenating |
| Server.CorrelationMatrix | app.py:62 | the matrix has exactly one entry per ordered pair of selected variables, each the coefficient of that pair over the subset by the requested method |
| Server.AdjustedCorrelations | app.py:65-68 | one entry per selected variable other than the moderator; a variable selected once gets its Pearson coefficient with the moderator over the subset, a variable selected twice its coefficient with itself |
| Server.Correlation | app.py:34-90 | 400 iff the dataset is absent, `null` or unknown; a successful answer iff the date range reads, the variable list is not `null`, every selected name is a variable and the method is known (otherwise 500; a `null` variable list always gives 500); on success the matrix is over the selection plus the moderator by the requested method, the strong list meets `StrongSpec`, and adjusted values are present iff the moderator is non-empty |
| Server.DetailedAnalysis | app.py:92-122 | 400 iff the dataset (`Marketing` when absent) is `null` or unknown; a successful answer iff both names are variable columns, the method is known and the walk yields a record; the data are the walk's records without NaN, all numbers, in non-decreasing date order, with both names echoed |
| StrongPairs.PairKeyEq | app.py:75-76 | for distinct names, two pair keys are equal iff they name the same two variables in either orientation |
| StrongPairs.StrongCorrelations | app.py:70-84 | every entry is a pair of distinct selected variables, the first met first, strong (a number with absolute value above 0.7) and carrying the matrix's coefficient; the entries come in nested-loop order; every strong pair is reported |
| StrongPairs.NoRepeatedPair | app.py:74-84 | no unordered pair is reported twice, in either orientation |
| StrongPairs.OrderedUnique | app.py:72-83 | two lists in nested-loop order with the same entries are the same list |
| StrongPairs.StrongSpecUnique | app.py:70-84 | the specification of the scan has exactly one solution, so the scan's output is determined by the selection and the matrix |
| StrongPairs.ReverseOrientationNeverTested | app.py:75-78 | only `[first][second]` is ever read: matrices that agree on those entries give the same strong list |
| Rolling.Insert | app.py:105 | inserting into a date-sorted list gives a date-sorted list with one more row, the same rows plus the new one |
| Rolling.SortByDate | app.py:105 | the result is sorted by date and is a permutation of the rows |
| Rolling.Window | app.py:109 | the window ending at row k holds the last min(k + 1, 30) rows up to and including row k, in order |
| Rolling.RecordAt | app.py:113-114 | a window's record is stamped with the date of the window's last row |
| Rolling.Walk | app.py:106-114 | the walk over the first k rows yields at most one record per row walked |
| Rolling.CompleteEnds | app.py:110-112 | the rows whose window is kept are all below the walk's current position, and there are no more of them than rows walked |
| Rolling.CompleteEndsSound | app.py:110-112 | every listed row's window has no missing value in either column |
| Rolling.CompleteEndsIncreasing | app.py:109-112 | the listed rows come in increasing order, each once |
| Rolling.CompleteEndsComplete | app.py:110-112 | every row whose window has no missing value in either column is listed |
| Rolling.WalkRecords | app.py:109-114 | the walk yields one record per complete window, in row order, and nothing for windows with a missing value |
| Rolling.WalkAscending | app.py:105-114 | over date-sorted rows the walk's records are in non-decreasing date order |
| Rolling.RollingWalk | app.py:106-114 | the loop builds exactly the walk's records |
| Rolling.DropNaN | app.py:116 | a record is kept iff it is one of the walk's records and its coefficient is a number |
| Rolling.DropNaNConcat | app.py:116 | `dropna` keeps the records in order: dropping from two runs is dropping from each and concatenating, and one record is kept iff its coefficient is a number |
| Rolling.DropNaNAscending | app.py:116 | dropping the NaN records keeps date order |
| Page.Page.constructor | static/js/main.js:1-6 | the globals start as dataset `Marketing`, no variables, method `pearson`, no date range, group `All`, no moderator; nothing is drawn yet, and the method, group and moderator-panel state come from the markup |
| Loader.OptionsFor | static/js/main.js:11-15 | one option per name, in order, whose value and text are the name |
| Loader.CheckboxesFor | static/js/main.js:38-42 | one unchecked checkbox per variable, in order |
| Loader.PopulateDatasets | static/js/main.js:9-18 | the dataset options grow by one option per dataset, in order, without clearing; the variables requested are those of the selected dataset |
| Loader.OnDatasetChange | static/js/main.js:22-25 | the global takes the chosen value before the variables are requested, so the request names the new dataset |
| Loader.LoadVariables | static/js/main.js:28-54 | the checkboxes are exactly one unchecked box per variable; the moderator options are "None" followed by one option per variable, with "None" chosen; the date inputs take the dataset's first and last dates |
| Loader.SwitchDatasetTwice | static/js/main.js:22-54 | after two dataset switches the page shows only the second dataset's variables and dates |
| CorrelationView.CheckedValues | static/js/correlation.js:3-4 | every checked box's value is in the selection, and everything in it is the value of a checked box |
| CorrelationView.CheckedValuesConcat | static/js/correlation.js:3-4 | the selection keeps document order |
| CorrelationView.FreshBoxesUnchecked | static/js/main.js:38-42 | right after the variables are loaded, the selection is empty |
| CorrelationView.OnUpdateClick | static/js/correlation.js:1-28 | the globals take the checked variables, the method, the two dates, the group and the moderator from the controls; the request body is exactly those globals and the dataset |
| CorrelationView.RowCells | static/js/correlation.js:88 | one cell per inner variable, in order, carrying that row's entry |
| CorrelationView.Cells | static/js/correlation.js:88 | the flattened list has outer × inner cells |
| CorrelationView.CellAt | static/js/correlation.js:88 | cell i·n + j pairs the i-th outer variable with the j-th variable and carries their matrix entry |
| CorrelationView.HeatmapCells | static/js/correlation.js:88 | the heatmap has n² cells for n selected variables |
| CorrelationView.HeatmapCellAt | static/js/correlation.js:88 | heatmap cell i·n + j is (`vars[i]`, `vars[j]`) with `matrix[vars[i]][vars[j]]` |
| CorrelationView.DrawCorrelationMatrix | static/js/correlation.js:48-111 | the chart is replaced; both axes list the variables in order; the side is 80 pixels per variable; the cells are the heatmap of the matrix |
| CorrelationView.AdjustedDomain | static/js/correlation.js:128-131 | the rows are the variables other than the moderator, and there are no more of them than variables |
| CorrelationView.AdjustedDomainConcat | static/js/correlation.js:128-131 | the rows keep the variables' order: the rows of two runs of variables are those of each, concatenated, and one variable makes a row iff it is not the moderator |
| CorrelationView.AdjustedDomainKeepsOrder | static/js/correlation.js:130 | when the moderator is not among the variables, the rows are the variables in their order |
| CorrelationView.AdjustedBarsMatchRows | static/js/correlation.js:128-156 | for the variables the page sent, the keys of the server's adjusted coefficients are exactly the chart's rows |
| CorrelationView.DrawAdjustedCorrelations | static/js/correlation.js:114-171 | the chart is replaced by one column, the moderator, with one row per non-moderator variable and a height of 40 pixels per variable |
| CorrelationView.Tint | static/js/correlation.js:181 | red iff the coefficient is positive, blue iff it is zero or negative |
| CorrelationView.ItemFor | static/js/correlation.js:177-188 | the item shows the pair and coefficient of its entry and is red iff the coefficient is positive |
| CorrelationView.ListStrongCorrelations | static/js/correlation.js:174-191 | the list is emptied, then holds exactly one item per entry, in the server's order |
| CorrelationView.OnCorrelationData | static/js/correlation.js:29-44 | a truthy error is alerted and nothing is redrawn; otherwise the heatmap (80 pixels per variable) and the list are redrawn for the variables selected now, and the moderator panel is visible iff the answer has adjusted coefficients, which it then draws with the moderator as its column and 40 pixels per variable |

## Left out

- Loading the CSV files and parsing dates (app.py:7-11): datasets are given as frames of rows with a whole-number date, a group and optional real cells; the date strings the routes print are not modelled.
- Server.SelectRows: how pandas reads a request's date string is the `DateParser` parameter; only its three outcomes (a day, `NaT`, unreadable) are modelled, not which strings give which.
- JSON values of the wrong type (a number where a list of names is expected, and so on): request fields are typed, so only absent and `null` keys are modelled.
- `get_datasets` and `index` (app.py:13-19): both only hand back fixed data; the dataset list reaches the page as the argument of `Loader.PopulateDatasets`.
- Coefficient arithmetic (Pearson, Kendall, Spearman): coefficients come from the oracle.
- Non-numeric variable columns: the model treats every column other than `Date` and `Group` as numeric.
- Tie order of `sort_values`: pandas' default quicksort is not stable. `Rolling.SortByDate` is a stable insertion sort, so rows of the same date may come out in a different order than pandas gives.
- JSON encoding: the NaN coefficients Flask writes into a correlation matrix are not valid JSON. The browser model receives real numbers only.
- HTTP transport: `d3.json` rejects any non-2xx answer, so a 400 or 500 never reaches the callbacks; the callbacks are modelled on whatever body they receive. Network failures, asynchrony and interleaving of answers are not modelled.
- CorrelationView.OnCorrelationData: requires the matrix to hold every pair of the selected variables. The script itself only fails when a row is missing; a missing entry in a present row draws an `undefined` cell, and the model does not capture that.
- CorrelationView.DrawCorrelationMatrix: has the same requirement on the matrix, for the same reason.
- Rendering: pixel positions, colour scales, axes, margins, tooltips (`createTooltip`, correlation.js:84-109 and 193-204), `toFixed` formatting and the HTML markup of list items and checkboxes. The model records what each chart shows (domains, cells, values, sizes), not how it is drawn.
- Clicking a strong pair (correlation.js:186-188): `showDetailedAnalysis` and the detail chart. static/js/detailed_analysis.js is not part of this model.
- `index.html` is not part of this model: the initial values of the method and group selects are constructor parameters of `Page.Page`.
