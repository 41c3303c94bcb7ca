/**
 * The request handler `update_prediction` (app.py, lines 202-248).
 *
 * Dash calls it with one positional argument per input of the callback: one
 * selection per category dropdown, in the key order of `dropdown_categories`,
 * then the checked benefits, then the button's click count.  It answers with
 * two strings: a warning under the dropdowns and the prediction text.
 *
 * The decision and the feature row are modelled exactly; what happens to the
 * row afterwards (encoding, prediction, the confidence interval, rounding and
 * printing the figures) is one opaque parameter, `estimate`.
 */
module Prediction {
  import opened Wrappers
  import opened Frames
  import opened Tables

  const SelectAllWarning: string := "Please select all dropdown categories for prediction."

  /** A positional argument of the callback, by the kind of input it comes from. */
  datatype Arg =
    | Dropdown(selection: Option<string>)
    | Checklist(checked: seq<string>)
    | Clicks(count: int)

  /** The three-way decision of the handler, with the row it builds. */
  datatype Response =
    | Warn(message: string)   // some category is not selected
    | Idle                    // all selected, but the button was never pressed
    | Predicted(row: Frame)   // the row handed to the encoder
    | Raised(reason: string)  // pandas raised while building the row

  /**
   * What the encoder and the model make of a row, already rounded to two
   * decimals and printed: the point estimate and the two bounds of the 95%
   * confidence interval.
   */
  datatype Estimate = Estimate(point: string, low: string, high: string)

  /**
   * The arguments Dash passes (app.py, line 206): one per dropdown, then the
   * checklist, then the click count.
   */
  function CallbackArgs(categories: seq<Option<string>>, selected: seq<string>, nClicks: int): seq<Arg>
    requires |categories| == |CategoryKeys|
  {
    seq(|categories|, i requires 0 <= i < |categories| => Dropdown(categories[i]))
      + [Checklist(selected), Clicks(nClicks)]
  }

  /** The shape every call has: dropdowns first, then the checklist, then the clicks. */
  predicate WellTyped(args: seq<Arg>) {
    && |args| >= 2
    && (forall i :: 0 <= i < |args| - 2 ==> args[i].Dropdown?)
    && args[|args| - 2].Checklist?
    && args[|args| - 1].Clicks?
  }

  /** `args[:-2]`: the category selections. */
  function CategoricalValues(args: seq<Arg>): seq<Option<string>>
    requires WellTyped(args)
  {
    seq(|args| - 2, i requires 0 <= i < |args| - 2 => args[i].selection)
  }

  /**
   * Splitting the arguments as the handler does (app.py, lines 209-211)
   * gives back the selections, the checked benefits and the click count that
   * Dash put in, in that order.
   */
  lemma ArgumentSplit(categories: seq<Option<string>>, selected: seq<string>, nClicks: int)
    requires |categories| == |CategoryKeys|
    ensures var args := CallbackArgs(categories, selected, nClicks);
      && WellTyped(args)
      && CategoricalValues(args) == categories
      && args[|args| - 2].checked == selected
      && args[|args| - 1].count == nClicks
  {
    var args := CallbackArgs(categories, selected, nClicks);
    assert forall i :: 0 <= i < |categories| ==> args[i] == Dropdown(categories[i]);
  }

  /** The selected labels of complete selections. */
  function Labels(categoricalValues: seq<Option<string>>): seq<string>
    requires None !in categoricalValues
  {
    seq(|categoricalValues|, i requires 0 <= i < |categoricalValues| => categoricalValues[i].value)
  }

  /**
   * The list comprehension of app.py, line 223: one 0/1 indicator per
   * catalogue entry, 1 when the entry occurs in the checked benefits.
   */
  function Indicators(selected: seq<string>): seq<Cell> {
    seq(|Benefits|, i requires 0 <= i < |Benefits| => Number(if Benefits[i] in selected then 1 else 0))
  }

  /**
   * The frame of category labels under the category names (app.py, line
   * 219); pandas raises when there are not as many labels as categories.
   */
  function InputData(labels: seq<string>): Result<Frame, string> {
    FromRow(CategoryKeys, seq(|labels|, i requires 0 <= i < |labels| => Text(labels[i])))
  }

  /** The frame of indicators under the catalogue names (app.py, line 223). */
  function BenefitsData(selected: seq<string>): Result<Frame, string> {
    FromRow(Benefits, Indicators(selected))
  }

  /** Both frames renamed and put side by side (app.py, lines 219-227). */
  function CombinedRow(labels: seq<string>, selected: seq<string>): Result<Frame, string> {
    var inputData :- InputData(labels);
    var benefitsData :- BenefitsData(selected);
    Success(Rename(inputData, OriginalColumns) + Rename(benefitsData, OriginalBenefits))
  }

  /** The combined row re-selected in the model's column order (app.py, line 231). */
  function AssembleRow(labels: seq<string>, selected: seq<string>): Result<Frame, string> {
    var combined :- CombinedRow(labels, selected);
    Select(combined, ModelColumns)
  }

  /**
   * The decision of app.py, lines 214-248, stopping at the row: the warning
   * exactly when a category is unselected, idle exactly when all are
   * selected and the button is not pressed, and a predicted row always has
   * the model's columns in the model's order.
   */
  function Decide(categoricalValues: seq<Option<string>>, selected: seq<string>, nClicks: int): (r: Response)
    ensures r.Warn? <==> None in categoricalValues
    ensures r.Warn? ==> r.message == SelectAllWarning
    ensures r.Idle? <==> None !in categoricalValues && nClicks <= 0
    ensures r.Predicted? ==> Names(r.row) == ModelColumns
  {
    if None in categoricalValues then
      Warn(SelectAllWarning)
    else if nClicks > 0 then
      match AssembleRow(Labels(categoricalValues), selected)
      case Success(row) => Predicted(row)
      case Failure(reason) => Raised(reason)
    else
      Idle
  }

  /** The prediction text of app.py, line 246, around the three printed figures. */
  function IncomeMessage(e: Estimate): string {
    "Projected monthly income: €" + e.point
      + ", with potential earnings ranging from €" + e.low
      + " to €" + e.high + "."
  }

  /**
   * `update_prediction(*args)`: the pair (warning, prediction text), or the
   * exception pandas raised.  The warning shows exactly when a category is
   * unselected, and the two outputs are never both non-empty.
   */
  function UpdatePrediction(args: seq<Arg>, estimate: Frame -> Estimate): (r: Result<(string, string), string>)
    requires WellTyped(args)
    ensures r.Success? ==> (r.value.0 != "" <==> None in CategoricalValues(args))
    ensures r.Success? ==> r.value.0 == "" || r.value.1 == ""
  {
    match Decide(CategoricalValues(args), args[|args| - 2].checked, args[|args| - 1].count)
    case Warn(message) => Success((message, ""))
    case Idle => Success(("", ""))
    case Predicted(row) => Success(("", IncomeMessage(estimate(row))))
    case Raised(reason) => Failure(reason)
  }

  //
  // The row, stated column by column.
  //

  /**
   * The row the model is meant to receive: under the i-th model column, the
   * i-th category label unchanged for the first five, then the indicator of
   * the (i - 5)-th catalogue benefit.
   */
  function ExpectedRow(labels: seq<string>, selected: seq<string>): Frame
    requires |labels| == 5
  {
    seq(|ModelColumns|, k requires 0 <= k < |ModelColumns| =>
      Column(ModelColumns[k],
             if k < 5 then Text(labels[k])
             else Number(if Benefits[k - 5] in selected then 1 else 0)))
  }

  /**
   * The hard-coded column list is the renamed category keys in dictionary
   * order followed by the renamed benefits in catalogue order.
   */
  lemma ModelColumnsAreRenamedColumns()
    ensures ModelColumns
      == seq(|CategoryKeys|, i requires 0 <= i < |CategoryKeys| => RenamedName(CategoryKeys[i], OriginalColumns))
       + seq(|Benefits|, j requires 0 <= j < |Benefits| => RenamedName(Benefits[j], OriginalBenefits))
  {
    CategoryRenameTotalAndInjective();
    BenefitRenameTotalAndInjective();
    ModelColumnsDistinct();
  }

  /**
   * Renaming the category frame changes its column names only: the i-th
   * column holds the i-th label, unchanged, under the i-th model column.
   */
  lemma RenamedInputData(labels: seq<string>)
    requires |labels| == |CategoryKeys|
    ensures |labels| == 5 && InputData(labels).Success?
    ensures Rename(InputData(labels).value, OriginalColumns)
      == seq(5, i requires 0 <= i < 5 => Column(ModelColumns[i], Text(labels[i])))
  {
    CategoryRenameTotalAndInjective();
    RenameKeepsColumns(InputData(labels).value, OriginalColumns);
  }

  /**
   * After renaming, the j-th benefit column sits under the (5 + j)-th model
   * column and holds 1 exactly when the j-th catalogue entry is checked.
   */
  lemma RenamedBenefitsData(selected: seq<string>)
    ensures BenefitsData(selected).Success?
    ensures Rename(BenefitsData(selected).value, OriginalBenefits)
      == seq(27, j requires 0 <= j < 27 =>
           Column(ModelColumns[5 + j], Number(if Benefits[j] in selected then 1 else 0)))
  {
    BenefitColumns();
    var benefitsData := BenefitsData(selected).value;
    var renamed := Rename(benefitsData, OriginalBenefits);
    forall j | 0 <= j < 27
      ensures renamed[j] == Column(ModelColumns[5 + j], Number(if Benefits[j] in selected then 1 else 0))
    {
      assert benefitsData[j] == Column(Benefits[j], Indicators(selected)[j]);
    }
  }

  /**
   * With one label per category, building, renaming and concatenating the
   * two frames succeeds and yields the expected row.
   */
  lemma CombinedRowLayout(labels: seq<string>, selected: seq<string>)
    requires |labels| == |CategoryKeys|
    ensures |labels| == 5
    ensures CombinedRow(labels, selected) == Success(ExpectedRow(labels, selected))
  {
    RenamedInputData(labels);
    RenamedBenefitsData(selected);
    ModelColumnsDistinct();
    BenefitColumns();
    var combined := Rename(InputData(labels).value, OriginalColumns)
      + Rename(BenefitsData(selected).value, OriginalBenefits);
    assert CombinedRow(labels, selected) == Success(combined);
    var expected := ExpectedRow(labels, selected);
    assert |combined| == |expected|;
    forall k | 0 <= k < |combined|
      ensures combined[k] == expected[k]
    {
      if k < 5 {
        assert combined[k] == Rename(InputData(labels).value, OriginalColumns)[k];
      } else {
        assert combined[k] == Rename(BenefitsData(selected).value, OriginalBenefits)[k - 5];
      }
    }
    assert combined == expected;
  }

  /**
   * The re-selection of app.py, line 231 is a no-op that cannot fail: the
   * combined row already has exactly the 32 model columns, in that order.
   */
  lemma ReselectionIsIdentity(labels: seq<string>, selected: seq<string>)
    requires |labels| == |CategoryKeys|
    ensures CombinedRow(labels, selected).Success?
    ensures var combined := CombinedRow(labels, selected).value;
      && Names(combined) == ModelColumns
      && |combined| == 32
      && AssembleRow(labels, selected) == Success(combined)
  {
    CombinedRowLayout(labels, selected);
    ModelColumnsDistinct();
    var combined := CombinedRow(labels, selected).value;
    assert Names(combined) == ModelColumns;
    SelectOwnNames(combined);
  }

  //
  // What the handler promises its callers.
  //

  /**
   * When any category is unselected the handler answers with the fixed
   * warning and an empty prediction, whatever the click count and benefits.
   */
  lemma IncompleteSelectionWarns(categories: seq<Option<string>>, selected: seq<string>, nClicks: int,
                                 estimate: Frame -> Estimate)
    requires |categories| == |CategoryKeys|
    requires None in categories
    ensures UpdatePrediction(CallbackArgs(categories, selected, nClicks), estimate)
      == Success((SelectAllWarning, ""))
  {
    ArgumentSplit(categories, selected, nClicks);
  }

  /**
   * With every category selected but no click yet (the button starts at
   * `n_clicks=0`), the handler answers with two empty strings.
   */
  lemma IdleUntilClicked(categories: seq<Option<string>>, selected: seq<string>, nClicks: int,
                         estimate: Frame -> Estimate)
    requires |categories| == |CategoryKeys|
    requires None !in categories && nClicks <= 0
    ensures UpdatePrediction(CallbackArgs(categories, selected, nClicks), estimate) == Success(("", ""))
  {
    ArgumentSplit(categories, selected, nClicks);
  }

  /**
   * With every category selected and at least one click, the handler builds
   * the expected row, clears the warning and shows the prediction text for
   * that row; it never raises.
   */
  lemma ClickedSelectionPredicts(categories: seq<Option<string>>, selected: seq<string>, nClicks: int,
                                 estimate: Frame -> Estimate)
    requires |categories| == |CategoryKeys|
    requires None !in categories && nClicks > 0
    ensures |Labels(categories)| == 5
    ensures Decide(categories, selected, nClicks) == Predicted(ExpectedRow(Labels(categories), selected))
    ensures UpdatePrediction(CallbackArgs(categories, selected, nClicks), estimate)
      == Success(("", IncomeMessage(estimate(ExpectedRow(Labels(categories), selected)))))
  {
    ArgumentSplit(categories, selected, nClicks);
    ReselectionIsIdentity(Labels(categories), selected);
    CombinedRowLayout(Labels(categories), selected);
  }

  /**
   * In the predicted row, the indicator of the j-th catalogue benefit sits
   * under its renamed column and is 1 when the benefit is checked, 0 when it
   * is not.
   */
  lemma IndicatorIsMembership(categories: seq<Option<string>>, selected: seq<string>, nClicks: int, j: int)
    requires |categories| == |CategoryKeys|
    requires None !in categories && nClicks > 0
    requires 0 <= j < |Benefits|
    ensures Decide(categories, selected, nClicks).Predicted?
    ensures var row := Decide(categories, selected, nClicks).row;
      && |row| == 32
      && row[5 + j].name == OriginalBenefits[Benefits[j]] == ModelColumns[5 + j]
      && (row[5 + j].cell == Number(1) <==> Benefits[j] in selected)
      && (row[5 + j].cell == Number(0) <==> Benefits[j] !in selected)
  {
    ClickedSelectionPredicts(categories, selected, nClicks, _ => Estimate("", "", ""));
    BenefitColumns();
  }

  /**
   * In the predicted row, the i-th column is the i-th category renamed, and
   * it holds the i-th selected label unchanged (trailing spaces included).
   */
  lemma CategoryLabelsVerbatim(categories: seq<Option<string>>, selected: seq<string>, nClicks: int, i: int)
    requires |categories| == |CategoryKeys|
    requires None !in categories && nClicks > 0
    requires 0 <= i < |categories|
    ensures Decide(categories, selected, nClicks).Predicted?
    ensures Decide(categories, selected, nClicks).row[i]
      == Column(OriginalColumns[CategoryKeys[i]], Text(categories[i].value))
      == Column(ModelColumns[i], Text(categories[i].value))
  {
    ClickedSelectionPredicts(categories, selected, nClicks, _ => Estimate("", "", ""));
    CategoryRenameTotalAndInjective();
  }

  /**
   * Only which catalogue benefits are checked matters: two checklists that
   * agree on every catalogue name give the same response.
   */
  lemma OnlyCatalogueMembershipMatters(categories: seq<Option<string>>, selected: seq<string>,
                                       other: seq<string>, nClicks: int)
    requires forall b :: b in Benefits ==> (b in selected <==> b in other)
    ensures Decide(categories, selected, nClicks) == Decide(categories, other, nClicks)
  {
    assert Indicators(selected) == Indicators(other);
  }

  /** Checking a benefit twice, or a name outside the catalogue, changes nothing. */
  lemma DuplicateOrUnknownBenefitIgnored(categories: seq<Option<string>>, selected: seq<string>,
                                         extra: string, nClicks: int)
    requires extra in selected || extra !in Benefits
    ensures Decide(categories, selected + [extra], nClicks) == Decide(categories, selected, nClicks)
  {
    OnlyCatalogueMembershipMatters(categories, selected + [extra], selected, nClicks);
  }

  /**
   * Called with a number of selections other than the number of categories,
   * the handler raises once clicked: pandas refuses to build the frame.
   */
  lemma CategoryCountMismatchRaises(categoricalValues: seq<Option<string>>, selected: seq<string>, nClicks: int)
    requires None !in categoricalValues && nClicks > 0
    requires |categoricalValues| != |CategoryKeys|
    ensures Decide(categoricalValues, selected, nClicks).Raised?
  {
  }

  // A worked example: Brussels, a master's degree, entry level, civil
  // engineering (the option carries a trailing space), sector "Other", with
  // a company car and a bonus, after one click.  Its two halves are proved
  // separately to keep each proof obligation small.

  /** The example's category columns: each label unchanged under its model column. */
  lemma BrusselsExampleLabels(categories: seq<Option<string>>, selected: seq<string>)
    requires categories == [Some("Brussel"), Some("Masters"), Some("Entry-Level (0-5 yrs)"),
                            Some("Civil engineering "), Some("Other")]
    requires selected == ["Car", "Bonus"]
    ensures var r := Decide(categories, selected, 1);
      && r.Predicted?
      && |r.row| == 32
      && r.row[0] == Column("zip_workplace1", Text("Brussel"))
      && r.row[3] == Column("education", Text("Civil engineering "))
  {
    CategoryKeysDistinct();
    CategoryLabelsVerbatim(categories, selected, 1, 0);
    CategoryLabelsVerbatim(categories, selected, 1, 3);
    assert ModelColumns[0] == "zip_workplace1" && ModelColumns[3] == "education";
    ClickedSelectionPredicts(categories, selected, 1, _ => Estimate("", "", ""));
  }

  /** The example's benefit columns: 1 for the car and the bonus, 0 for all the others. */
  lemma BrusselsExampleIndicators(categories: seq<Option<string>>, selected: seq<string>)
    requires categories == [Some("Brussel"), Some("Masters"), Some("Entry-Level (0-5 yrs)"),
                            Some("Civil engineering "), Some("Other")]
    requires selected == ["Car", "Bonus"]
    ensures var r := Decide(categories, selected, 1);
      && r.Predicted?
      && r.row[5] == Column("Benefit_Car", Number(1))
      && r.row[18] == Column("Benefit_Bonus", Number(1))
      && forall k :: 6 <= k < 32 && k != 18 ==> r.row[k].cell == Number(0)
  {
    CategoryKeysDistinct();
    assert ModelColumns[5] == "Benefit_Car" && ModelColumns[18] == "Benefit_Bonus";
    assert selected == [Benefits[0], Benefits[13]];
    ClickedSelectionPredicts(categories, selected, 1, _ => Estimate("", "", ""));
    var row := ExpectedRow(Labels(categories), selected);
    assert row[5] == Column(ModelColumns[5], Number(1));
    assert row[18] == Column(ModelColumns[18], Number(1));
    OnlyCarAndBonusChecked(Labels(categories), selected);
  }

  lemma OnlyCarAndBonusChecked(labels: seq<string>, selected: seq<string>)
    requires |labels| == 5
    requires selected == [Benefits[0], Benefits[13]]
    ensures forall k :: 6 <= k < 32 && k != 18 ==> ExpectedRow(labels, selected)[k].cell == Number(0)
  {
    BenefitRenameTotalAndInjective();
    forall k | 6 <= k < 32 && k != 18
      ensures ExpectedRow(labels, selected)[k].cell == Number(0)
    {
      assert Benefits[k - 5] != Benefits[0] && Benefits[k - 5] != Benefits[13];
    }
  }
}
