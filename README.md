# Income prediction form: request handler model

A Dafny model of the request handler of the Elekti benchmark-analysis web form
(`app.py`). The form has five category dropdowns: place of work, degree,
experience band, education and NACE sector. It also has a checklist of
employment benefits and a "Get The Income Prediction" button. When any input
changes, Dash calls `update_prediction(*args)` with one argument per input.
The handler answers with two strings: a warning under the dropdowns and the
prediction text.

The model covers:

- the constant tables: the dropdown options, the 27-entry benefit catalogue,
  the two rename dictionaries, and the 32-column order the model expects
  (module `Tables`, file `tables.dfy`);
- the small part of pandas the handler relies on, with a one-row DataFrame
  modelled as a sequence of named columns (module `Frames`, file
  `frames.dfy`). It covers construction from one row, renaming through a
  dictionary, and column selection. Concatenating two one-row frames side by
  side is sequence concatenation, `+`.
  Construction and selection raise in pandas, and those errors are `Failure`
  results here;
- the handler itself (module `Prediction`, file `prediction.dfy`):
  - `CallbackArgs` packs the inputs the way the callback wiring does;
  - `CategoricalValues` splits them the way the handler does;
  - `Decide` makes the three-way decision (warning, idle, predict) and builds
    the feature row;
  - `UpdatePrediction` turns that decision into the two output strings.

The encoder, the regression model, the confidence interval and the printing
of the figures are one opaque parameter, `estimate`. It maps the finished
row to three already-printed figures.

The main facts proved:

- An unselected category always gives the fixed warning and an empty
  prediction. Complete selections before any click give two empty strings.
- After a click, the row is exactly `ExpectedRow`, column by column. The
  category labels appear unchanged, trailing spaces included. Each benefit
  indicator is 1 exactly when that benefit is checked. Duplicates and names
  outside the catalogue have no effect.
- Both rename dictionaries are total on their keys and injective.
- The hard-coded 32-column list is the renamed columns in their natural
  order, so the final re-selection returns the row unchanged and can never
  raise KeyError.

Facts of the code that the model keeps exactly:

- The benefit catalogue has 27 entries (app.py:94-102). The model's column
  list has 32 names (app.py:231-237): 5 category columns and 27 indicators.
- The education options `'Mechanical engineering '` and
  `'Civil engineering '` end in a space (app.py:49-50). Labels are passed on
  verbatim, so the worked example uses `"Civil engineering "`.
- The checked benefits arrive as a list, and only membership in it is
  consulted (app.py:223). The model takes a `seq<string>` and proves that
  repetitions do not matter.

## Model

Some functions have no contract of their own. A lemma in the table below
states each one's property:

- `Prediction.CallbackArgs` (app.py:206) and `Prediction.CategoricalValues`
  (app.py:209-211): `Prediction.ArgumentSplit`.
- `Prediction.Indicators` (app.py:223): `Prediction.RenamedBenefitsData` and
  `Prediction.IndicatorIsMembership`.
- `Frames.Rename` (app.py:220, 224): `Frames.RenameKeepsColumns`,
  `Prediction.RenamedInputData` and `Prediction.RenamedBenefitsData`.
- `Prediction.InputData`, `Prediction.BenefitsData` and
  `Prediction.CombinedRow` (app.py:219-227): `Prediction.CombinedRowLayout`.
- `Prediction.AssembleRow` (app.py:231): `Prediction.ReselectionIsIdentity`.
- `Prediction.IncomeMessage` (app.py:246): `Prediction.ClickedSelectionPredicts`
  states that the prediction text is this sentence around `estimate(row)`.
  The sentence itself is a fixed template with no further property.

| member | source | states |
|---|---|---|
| `Tables.CategoryKeysInOrder` | app.py:41-82 | the dropdown categories, and so the handler's category arguments, come in the order Place of Work, Degree, Experience Category, Education, NACE Category |
| `Tables.CategoryRenameTotalAndInjective` | app.py:84-90 | `original_columns` is defined on exactly the five distinct dropdown keys. It maps them to five distinct names, namely the first five model columns in key order |
| `Tables.BenefitRenameTotalAndInjective` | app.py:94-132 | `original_benefits` is defined on exactly the 27 distinct catalogue names and is injective. The i-th benefit maps to the (5+i)-th model column, and "Gift Vouchers" maps to "Benefit_Gift" |
| `Tables.BenefitColumns` | app.py:104-132 | every catalogue name is a key of `original_benefits`, every key is a catalogue name, and the i-th benefit is renamed to the (5+i)-th model column |
| `Tables.ModelColumnsDistinct` | app.py:231-237 | the hard-coded column list has 32 pairwise distinct names |
| `Frames.FromRow` | app.py:219 | building a one-row frame succeeds exactly when there are as many values as column names. It then places the i-th value under the i-th name |
| `Frames.RenameKeepsColumns` | app.py:220 | renaming through a mapping that is total on the columns and injective keeps names distinct. It keeps every cell in place and gives each column its mapped name |
| `Frames.Select` | app.py:231 | selection succeeds exactly when every listed name is a column. It then returns columns of the frame with exactly the listed names in the listed order; otherwise the error names a missing column |
| `Frames.SelectOwnNames` | app.py:231-237 | selecting a frame's own column names, in order, returns the frame unchanged when those names are distinct |
| `Prediction.ArgumentSplit` | app.py:206-211 | splitting the callback arguments as `args[:-2]`, `args[-2]` and `args[-1]` gives back the category selections, the checked benefits and the click count, in the order the inputs are declared |
| `Prediction.Decide` | app.py:214-248 | the result is the warning with the fixed message exactly when a category is unselected. It is idle exactly when all are selected and the click count is not positive. A predicted row always has the model columns in the model's order |
| `Prediction.UpdatePrediction` | app.py:208-248 | the warning output is non-empty exactly when a category is unselected, and the two outputs are never both non-empty |
| `Prediction.IncompleteSelectionWarns` | app.py:214-215 | with any category unselected, the outputs are the fixed warning and the empty string, whatever the click count and benefits |
| `Prediction.IdleUntilClicked` | app.py:217-248 | with every category selected and a click count that is not positive (the button starts at 0), the outputs are two empty strings |
| `Prediction.ClickedSelectionPredicts` | app.py:217-246 | with every category selected and a positive click count, the handler does not raise. The row is `ExpectedRow` of the labels and the checked benefits, the warning output is empty, and the prediction text is that of `estimate(row)` |
| `Prediction.RenamedInputData` | app.py:219-220 | renaming the category frame changes names only: column i holds the i-th label unchanged under the i-th model column |
| `Prediction.RenamedBenefitsData` | app.py:223-224 | after renaming, the j-th benefit column is the (5+j)-th model column. It holds 1 when the j-th catalogue entry is checked and 0 otherwise |
| `Prediction.CombinedRowLayout` | app.py:219-227 | with one label per category, building, renaming and concatenating the two frames succeeds and yields exactly `ExpectedRow` |
| `Prediction.ModelColumnsAreRenamedColumns` | app.py:227-237 | the hard-coded column list equals the renamed dropdown keys in dictionary order followed by the renamed benefits in catalogue order |
| `Prediction.ReselectionIsIdentity` | app.py:227-237 | the combined row has the 32 model columns in model order, so the re-selection returns it unchanged and never raises |
| `Prediction.IndicatorIsMembership` | app.py:223 | in the predicted row, the indicator of the j-th catalogue benefit sits under its renamed column. It is 1 exactly when the benefit is checked and 0 exactly when it is not |
| `Prediction.CategoryLabelsVerbatim` | app.py:219-220 | in the predicted row, column i is the i-th category renamed and holds the i-th selected label unchanged |
| `Prediction.OnlyCatalogueMembershipMatters` | app.py:223 | two checklists that agree on every catalogue name give the same response |
| `Prediction.DuplicateOrUnknownBenefitIgnored` | app.py:223 | checking an already-checked benefit, or a name outside the catalogue, does not change the response |
| `Prediction.CategoryCountMismatchRaises` | app.py:219 | with a number of selections other than the number of categories, a click makes pandas raise while building the frame |
| `Prediction.BrusselsExampleLabels` | app.py:219-220 | worked example: "Brussel" sits under `zip_workplace1`, and "Civil engineering " (with its space) sits under `education` |
| `Prediction.BrusselsExampleIndicators` | app.py:223-237 | worked example: with the car and the bonus checked, `Benefit_Car` and `Benefit_Bonus` are 1 and the other 25 indicators are 0 |

## Left out

- The Dash application object, the HTML `index_string`, the layout tree and
  the `@app.callback` decorator (app.py:12-38, 136-207). They are UI
  configuration. Only the order of the callback's inputs (line 206) is kept,
  in `CallbackArgs`. The dropdown option lists are kept as data, but only the
  layout reads them. The handler does not check labels against them, and
  neither does the model.
- Loading `income_model.pkl` (app.py:8-9). This is file I/O and
  deserialisation of an opaque artifact.
- `encoder.transform(...).toarray()`, `model.predict`, `model.get_prediction`
  and `conf_int(alpha=0.05)` (app.py:240-245). These are foreign calls on an
  unseen model. Together they are the `estimate` parameter, which is assumed
  total. An encoder that rejects an unseen label is therefore not modelled.
- `round(..., 2)` and the printing of floats inside the f-string (app.py:243,
  246). This is floating-point work. `Estimate` carries the three figures
  already printed, and `IncomeMessage` only places them in the sentence.
- Frames.Select: pandas returns every column of a duplicated name, while the
  model takes the first. The rows built here are proved to have distinct
  names, so this does not matter. On a missing name, the model reports one
  missing label where pandas lists them all.
- pandas beyond one-row frames of named columns: the index, dtypes and
  `inplace` mutation. The two in-place renames act only on frames built on
  the line before, so a pure renaming function is equivalent.
- Argument shapes Dash never produces are excluded by `WellTyped`. Examples
  are fewer than two arguments, or a checklist value where a dropdown value
  belongs.
- `app.run_server(debug=True)` and `server = app.server` (app.py:13, 251-252).
  This is process management.
