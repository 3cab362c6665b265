/** The browser page: the selection globals main.js declares and the parts of
    the document that main.js and correlation.js read and write. */
module Page {

  /** `<input type="checkbox" class="var-checkbox" value=...>`. */
  datatype Checkbox = Checkbox(value: string, checked: bool)

  /** `<option value=...>text</option>`. */
  datatype SelectOption = SelectOption(value: string, text: string)

  /** One rectangle of the correlation heatmap: column `v1`, row `v2`. */
  datatype HeatCell = HeatCell(v1: string, v2: string, value: real)

  /** One `<li>` of the strong-correlation list; clicking it asks for the
      rolling analysis of (`var1`, `var2`). */
  datatype ListItem = ListItem(var1: string, var2: string, value: real, background: string)

  class Page {
    // The module-level `let` globals of main.js.
    var selectedDataset: string
    var selectedVariables: seq<string>
    var corrMethod: string
    var dateRange: seq<string>
    var group: string
    var moderator: string

    // Input controls.
    var datasetOptions: seq<SelectOption>    // #dataset-select
    var checkboxes: seq<Checkbox>            // #variables, in document order
    var moderatorOptions: seq<SelectOption>  // #moderator-select
    var moderatorChoice: string              // value of #moderator-select
    var methodChoice: string                 // value of #method-select
    var groupChoice: string                  // value of #group-select
    var startDate: string                    // value of #start-date
    var endDate: string                      // value of #end-date

    // Output drawn by correlation.js.
    var matrixDomain: seq<string>            // x and y band domain of #correlation-chart
    var matrixCells: seq<HeatCell>
    var matrixSize: int                      // chart width and height, in pixels
    var adjustedVisible: bool                // display of #adjusted-correlation-container
    var adjustedDomain: seq<string>          // y band domain of #adjusted-correlation-chart
    var adjustedColumn: string               // its one-column x band domain
    var adjustedHeight: int
    var adjustedValues: map<string, real>
    var strongList: seq<ListItem>            // #strong-correlations
    var alerts: seq<string>                  // messages shown with alert()

    /** The page as main.js:1-6 leaves it; the method and group selects start
        on whatever option the page's markup selects, and the adjusted chart
        is shown or hidden as the markup has it. */
    constructor (methodChoice: string, groupChoice: string, adjustedVisible: bool)
      ensures selectedDataset == "Marketing" && selectedVariables == [] && corrMethod == "pearson"
      ensures dateRange == [] && group == "All" && moderator == ""
      ensures datasetOptions == [] && checkboxes == [] && moderatorOptions == []
      ensures this.methodChoice == methodChoice && this.groupChoice == groupChoice
      ensures strongList == [] && matrixCells == [] && alerts == []
      ensures this.adjustedVisible == adjustedVisible
    {
      selectedDataset := "Marketing";
      selectedVariables := [];
      corrMethod := "pearson";
      dateRange := [];
      group := "All";
      moderator := "";
      datasetOptions, checkboxes, moderatorOptions := [], [], [];
      moderatorChoice, this.methodChoice, this.groupChoice := "", methodChoice, groupChoice;
      startDate, endDate := "", "";
      matrixDomain, matrixCells, matrixSize := [], [], 0;
      this.adjustedVisible, adjustedDomain, adjustedColumn := adjustedVisible, [], "";
      adjustedHeight, adjustedValues := 0, map[];
      strongList, alerts := [], [];
    }
  }
}
