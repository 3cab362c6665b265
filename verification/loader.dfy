/** The dataset and variable loader of main.js: filling the dataset list,
    reacting to a dataset change, and rebuilding the variable checkboxes and
    the moderator options from a `/variables` answer. */
module Loader {
  import opened Page

  /** The `/variables` answer as the browser receives it. */
  datatype VariablesData = VariablesData(variables: seq<string>, minDate: string, maxDate: string)

  /** One option per name, value and text both the name. */
  function OptionsFor(names: seq<string>): (opts: seq<SelectOption>)
    ensures |opts| == |names|
    ensures forall i :: 0 <= i < |names| ==> opts[i] == SelectOption(names[i], names[i])
  {
    seq(|names|, i requires 0 <= i < |names| => SelectOption(names[i], names[i]))
  }

  /** One unchecked checkbox per variable. */
  function CheckboxesFor(vars: seq<string>): (boxes: seq<Checkbox>)
    ensures |boxes| == |vars|
    ensures forall i :: 0 <= i < |vars| ==> boxes[i] == Checkbox(vars[i], false)
  {
    seq(|vars|, i requires 0 <= i < |vars| => Checkbox(vars[i], false))
  }

  /** The moderator select's first option: value "" shown as "None". */
  const NoModerator: SelectOption := SelectOption("", "None")

  /** The `/datasets` callback (main.js:9-18): one option per dataset, in
      order, appended to what the select already holds; then the variables of
      `selectedDataset` are requested. */
  method PopulateDatasets(p: Page, datasets: seq<string>) returns (requested: string)
    modifies p`datasetOptions
    ensures p.datasetOptions == old(p.datasetOptions) + OptionsFor(datasets)
    ensures requested == p.selectedDataset
  {
    for k := 0 to |datasets|
      invariant p.datasetOptions == old(p.datasetOptions) + OptionsFor(datasets[..k])
    {
      assert datasets[..k + 1] == datasets[..k] + [datasets[k]];
      p.datasetOptions := p.datasetOptions + [SelectOption(datasets[k], datasets[k])];
    }
    assert datasets[..|datasets|] == datasets;
    requested := p.selectedDataset;
  }

  /** The dataset select's change handler (main.js:22-25): the global is set
      before the variables are requested, so the request names the choice. */
  method OnDatasetChange(p: Page, value: string) returns (requested: string)
    modifies p`selectedDataset
    ensures p.selectedDataset == value && requested == value
  {
    p.selectedDataset := value;
    requested := p.selectedDataset;
  }

  /** The `/variables` callback of `loadVariables` (main.js:30-53). Both
      containers are emptied before they are filled, so what they hold
      afterwards depends on this answer alone. */
  method LoadVariables(p: Page, data: VariablesData)
    modifies p`checkboxes, p`moderatorOptions, p`moderatorChoice, p`startDate, p`endDate
    ensures p.checkboxes == CheckboxesFor(data.variables)
    ensures p.moderatorOptions == [NoModerator] + OptionsFor(data.variables)
    ensures p.moderatorChoice == ""
    ensures p.startDate == data.minDate && p.endDate == data.maxDate
  {
    p.checkboxes := [];
    p.moderatorOptions := [NoModerator];
    p.moderatorChoice := "";
    var vars := data.variables;
    for k := 0 to |vars|
      invariant p.checkboxes == CheckboxesFor(vars[..k])
      invariant p.moderatorOptions == [NoModerator] + OptionsFor(vars[..k])
      invariant p.moderatorChoice == ""
    {
      p.checkboxes := p.checkboxes + [Checkbox(vars[k], false)];
      p.moderatorOptions := p.moderatorOptions + [SelectOption(vars[k], vars[k])];
    }
    assert vars[..|vars|] == vars;
    p.startDate := data.minDate;
    p.endDate := data.maxDate;
  }

  /** Two dataset switches in a row: the page shows the second dataset's
      variables only, with nothing left over from the first. */
  method SwitchDatasetTwice(p: Page, first: string, r1: VariablesData, second: string, r2: VariablesData)
    modifies p`selectedDataset, p`checkboxes, p`moderatorOptions, p`moderatorChoice, p`startDate, p`endDate
    ensures p.selectedDataset == second
    ensures p.checkboxes == CheckboxesFor(r2.variables)
    ensures p.moderatorOptions == [NoModerator] + OptionsFor(r2.variables)
    ensures p.startDate == r2.minDate && p.endDate == r2.maxDate
  {
    var _ := OnDatasetChange(p, first);
    LoadVariables(p, r1);
    var _ := OnDatasetChange(p, second);
    LoadVariables(p, r2);
  }
}
