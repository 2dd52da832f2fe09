# Data visualisation upload and chart pipeline: a Dafny model

This project models the part of the data-visualisation web application that carries logic:

- **The `/upload` handler (`app.py`).**
  - It rejects a request without a `file` part, a part with an empty file name, and a name without a case-sensitive `.xlsx` or `.csv` suffix.
  - It picks the Excel or the CSV reader.
  - It turns any exception the reader raises into an `{error: ...}` reply.
  - It tags every column of the frame it read: `N` (numeric), `D` (date), `TN` (text and numbers) or `T` (text). This is the `identify_column_types` cascade together with `has_text_and_numbers`.
- **The browser's script (`static/js/script.js`).**
  - The file chooser and the browser's own extension check.
  - The page state the upload reply overwrites: stored rows, column types, the column list with its type labels, and the four column selects with the first-numeric default.
  - The pie versus x/y visibility toggle.
  - The chart aggregation: `_.groupBy` keyed by the cell's string form, keys in `Object.keys` order, `parseFloat(x) || 0`, a sum per group for the pie and a mean per group for bar and line.
  - Replacing the chart on every generation.
  - `adjustColorBrightness`.

Modules, one per file:

- `wrappers.dfy`: `Option` and `Result`.
- `text.dfy`: ASCII string helpers.
- `column_types.dfy`: the column tags, `has_text_and_numbers` and `identify_column_types`.
- `upload_server.dfy`: `upload_file`.
- `intake.dfy`: the browser's extension rule and how it compares with the server's.
- `aggregation.dfy`: grouping, key order, sums, means and the chart data.
- `scenarios.dfy`: worked examples of the aggregation.
- `colors.dfy`: `adjustColorBrightness`.
- `registry.dfy`: the type labels and the default value column.
- `page.dfy`: the page's mutable state as the class `PageModel`, and chart instances as the class `ChartInstance`.

Things the model takes as parameters:

- pandas' numeric test and date test are parameters of type `Column -> bool`.
- The file readers are a parameter that returns the frame or the exception's text.
- `parseFloat` is a parameter `string -> Option<real>`, where `None` stands for NaN.
- The rows the server sends as `data` are a parameter of `Page.ReplyFor`.

Behaviour that is easy to misread:

- **Key order.** `Object.keys` on the grouped object lists array-index keys (`"0"`, `"1"`, `"42"`) first, in ascending numeric order. Only then does it list the other keys, in the order they were first met. So chart labels are *not* simply in first-encounter order (`Aggregation.ObjectKeys`, `AggregationScenarios.NumericLabelsFirst`).
- **Extension rules.** The browser and the server use different rules. `DATA.CSV` and a name that is just `csv` pass the browser's check and are refused by the server.
- **An empty error text.** A reply `{error: ""}` is falsy in the script, so it takes the success path.
  - `uploadedData` and `columnTypes` become `undefined` and the column list is cleared.
  - Then `columns.forEach` throws, and the `catch` re-enables the button.
- **The button after success.** A data reply leaves the upload button as it was: disabled, unless a file was chosen again during the upload.

## Model

| member | source | states |
|---|---|---|
| ColumnTypes.HasTextAndNumbersIff | app.py:65-78 | true iff some value contains an ASCII letter and some value, not necessarily the same one, contains an ASCII digit; false for an empty column |
| ColumnTypes.ClassifyCascade | app.py:13-25 | a column is N iff numeric; D iff not numeric and a date; TN iff neither and has text and numbers; T iff none of these |
| ColumnTypes.IdentifyColumnTypes | app.py:10-27 | the result has exactly the frame's column names as keys, and each column's tag is its cascade classification |
| UploadServer.ReaderChoice | app.py:96-99 | an accepted name goes to the Excel reader iff it ends in `.xlsx` and to the CSV reader iff it ends in `.csv` |
| UploadServer.UploadFile | app.py:84-116 | no `file` part gives "No file part"; an empty name gives "No selected file"; a name without a case-sensitive `.xlsx`/`.csv` suffix gives the not-supported error; a reader exception becomes an error carrying its text; otherwise the reply lists the frame's columns in order, one tag per column, and the success message |
| FileIntake.ClientAcceptsIff | static/js/script.js:50-54 | the browser accepts a name iff the lowercased text after its last `.` (the whole name when there is none) is `xlsx` or `csv` |
| FileIntake.ServerAcceptsIff | app.py:94 | the server accepts a name iff it contains a dot and the text after the last dot is exactly `xlsx` or `csv` |
| FileIntake.SegmentIgnoringCase | static/js/script.js:50-51 | for a word without a dot, the name ends in that word after its last dot, ignoring case, iff its lowercased extension is the word |
| FileIntake.DotSuffix | app.py:94 | for a word without a dot, a name ends in `.` plus the word iff it contains a dot and the text after the last dot is the word |
| FileIntake.ServerAcceptedIsClientAccepted | app.py:94 | every name the server accepts is also accepted by the browser |
| FileIntake.UpperCaseExtensionDisagreement | static/js/script.js:50-54 | `DATA.CSV` passes the browser's check and is refused by the server |
| FileIntake.DotlessNameDisagreement | static/js/script.js:50 | a name that is just `csv` passes the browser's check and is refused by the server |
| FileIntake.PdfRejected | static/js/script.js:51 | `report.pdf` is refused by both sides |
| Aggregation.GroupByCorrect | static/js/script.js:223 | `_.groupBy` keys are distinct and are exactly the key values that occur; each key holds exactly the rows with that key, in row order, and none is empty; keys are created in first-encounter order |
| Aggregation.ObjectKeysPermutation | static/js/script.js:225 | `Object.keys` lists each created property name exactly once |
| Aggregation.ObjectKeysIndicesFirst | static/js/script.js:225 | array-index names come before all other names and in ascending numeric order |
| Aggregation.ObjectKeysOthersInOrder | static/js/script.js:225 | the names that are not array indices keep their creation order |
| Aggregation.ObjectKeysWithoutIndices | static/js/script.js:285 | without array-index names, `Object.keys` is exactly the creation order |
| Aggregation.GroupLabelsKeys | static/js/script.js:225 | the chart labels are distinct, at most one per row, and are exactly the key values that occur |
| Aggregation.GroupLabelsOrder | static/js/script.js:285 | the labels are ordered as `Object.keys` orders the grouped object |
| Aggregation.PreparePie | static/js/script.js:221-278 | the labels are the grouped object's keys; each label's value is the sum of `parseFloat(v)`, or 0 when it is NaN, over exactly the rows with that label; as many values as labels; title "label by value"; no series label, no fill |
| Aggregation.PieLabels | static/js/script.js:223-225 | the pie labels are distinct, at most one per row, exactly the label values that occur, and in `Object.keys` order; there are as many values as labels |
| Aggregation.PrepareAxis | static/js/script.js:281-353 | the labels are the grouped object's keys; each value is the coerced sum over exactly the rows with that x value divided by their number, which is never zero; title "y by x"; series label y; area filled iff the chart is a line |
| Aggregation.AxisLabels | static/js/script.js:284-285 | the axis labels are distinct, at most one per row, exactly the x values that occur, and in `Object.keys` order; there are as many values as labels |
| Aggregation.SortBySortedPermutation | static/js/script.js:225 | the array-index names are put in ascending order without losing or adding any name |
| Aggregation.GroupTotalPartition | static/js/script.js:223-228 | summing the per-group sums over keys that cover every key value gives the sum over all rows |
| Aggregation.PieConservation | static/js/script.js:226-228 | the pie values add up to the sum of `parseFloat(v)`, or 0 when it is NaN, over all rows |
| Aggregation.UnparsableCellsSumToZero | static/js/script.js:227 | cells `parseFloat` cannot read contribute 0 |
| AggregationScenarios.CitySalesGroups | static/js/script.js:223-225 | rows A/10, A/20, B/5 group into A (the first two rows) and B (the last), labelled A, B |
| AggregationScenarios.CitySalesSums | static/js/script.js:226-228 | with `parseFloat` reading 10, 20 and 5, group A sums to 30 and group B to 5 |
| AggregationScenarios.CitySalesMeans | static/js/script.js:286-288 | the same groups average to 15 and 5 |
| AggregationScenarios.PieScenario | static/js/script.js:226-228 | those rows give pie values 30 and 5 |
| AggregationScenarios.BarScenario | static/js/script.js:286-288 | those rows give bar values 15 and 5 |
| AggregationScenarios.NumericLabelsFirst | static/js/script.js:285 | keys created as b, 2, a, 1 are listed as 1, 2, b, a |
| Colors.ParseHexPair | static/js/script.js:448-450 | `parseInt` of two hexadecimal digits in base 16 is their value, in [0, 255] |
| Colors.RgbChannels | static/js/script.js:453-456 | `match` is null, and there are no channels, iff `/\d+/g` finds no digit run in the colour |
| Colors.Round | static/js/script.js:465-467 | `Math.round` gives the integer within half of x, rounding halves up |
| Colors.Shift | static/js/script.js:465-467 | a shifted channel is NaN iff the input is NaN, and is otherwise in [0, 255] |
| Colors.ShiftByZero | static/js/script.js:465 | a zero factor leaves a channel in [0, 255] unchanged |
| Colors.ShiftMonotone | static/js/script.js:465-467 | a larger factor never gives a darker channel |
| Colors.AdjustColorBrightness | static/js/script.js:442-470 | a `#` colour is read as three hex pairs, shifted and printed as `rgb(r, g, b)`; an `rgb` colour without digits raises the TypeError, and one with digits is read from its digit runs, shifted and printed; `hsl` becomes `hsla` with alpha 1 + factor; anything else is returned unchanged |
| Colors.RunsOfTriple | static/js/script.js:453-456 | `/\d+/g` finds exactly the three numbers of `rgb(a, b, c)`, in order |
| Colors.RenderReadsBack | static/js/script.js:453-469 | a printed `rgb(r, g, b)` with channels in [0, 255] reads back, through `/\d+/g`, as the same channels |
| Colors.AdjustByZeroIsStable | static/js/script.js:446-469 | adjusting by 0 a colour already adjusted from a `#` or `rgb` colour whose three channels parse (none is NaN) gives it back unchanged |
| Colors.HexColorChannels | static/js/script.js:446-450 | a well-formed `#rrggbb` yields the three hex pair values |
| Colors.DarkenRed | static/js/script.js:446-469 | `#ff0000` darkened by 0.2 is `rgb(204, 0, 0)` |
| Colors.NamedColorUnchanged | static/js/script.js:460-461 | `red` is returned unchanged |
| Colors.RgbWithoutDigitsThrows | static/js/script.js:453-454 | `rgb(a, b, c)` raises the TypeError |
| Registry.TypeLabel | static/js/script.js:110-115 | among codes that are not inherited `Object.prototype` names, a code has a label iff it is T, N, TN or D; the server sends only these four |
| Registry.TagLabels | static/js/script.js:110-115 | T, N, TN and D map to Text, Numeric, Text + Numeric and Date, each label naming exactly its tag |
| Registry.Badges | static/js/script.js:108-125 | one entry per column, in column order, with the column's code and label (undefined when the column has no type) |
| Registry.ProcessedColumnsAreLabelled | static/js/script.js:108-115 | after a successful server reply every listed column has a label |
| Registry.NumericColumns | static/js/script.js:160 | the filter keeps only columns whose type is `N`, taken from the column list |
| Registry.DefaultExistsIff | static/js/script.js:160-161 | there is a default value column iff some column has type `N` |
| Registry.DefaultIsFirstNumeric | static/js/script.js:160-163 | the default is the first column of type `N` in column order |
| Page.IndexOf | static/js/script.js:162-163 | setting a select's value picks the first option with that value, or none |
| Page.Select.SetValue | static/js/script.js:162-163 | after the assignment the select shows the value when it is an option, and shows nothing otherwise |
| Page.Select.Append | static/js/script.js:141 | appending an option to a select with nothing selected selects the first option |
| Page.FilledShowsFirst | static/js/script.js:137-157 | a select filled with the columns offers them in order and shows the first (nothing when there are none) |
| Page.ValueSelectShows | static/js/script.js:159-164 | the Y-axis and value selects show the first numeric column when there is one, and otherwise are as filling left them |
| Page.AppendColumns | static/js/script.js:137-157 | appending one option per column to each of the four emptied selects leaves each of them as the filled select of the columns |
| Page.FillSelects | static/js/script.js:137-164 | the x and label selects end as filled with the columns; the y and value selects end as filled and then set to the default value column when there is one |
| Page.AppendBadges | static/js/script.js:108-125 | appending one entry per column to the emptied list gives exactly the badges of the columns, in column order |
| Page.ReplyFor | app.py:106-114 | an error response reaches the browser as its error text; a success carries the columns, the rows and each tag's code |
| Page.ChartInstance.Destroy | static/js/script.js:359 | a destroyed chart is no longer live |
| Page.PageModel.constructor | static/js/script.js:2-4 | the page starts with no rows, an empty type map and no chart, and no chart instance exists |
| Page.PageModel.Load | static/js/script.js:492-496 | the `load` handler shows "Choose a file" and disables the upload button; nothing else changes |
| Page.PageModel.SelectFile | static/js/script.js:33-42 | choosing a file shows its name and enables the button; choosing none restores "Choose a file" and disables it |
| Page.PageModel.BeginUpload | static/js/script.js:45-61 | a request is sent iff a file is chosen and its extension is accepted; then only the button is disabled; otherwise nothing changes |
| Page.PageModel.DisplayColumns | static/js/script.js:105-126 | the column list is replaced by one entry per column; nothing else changes |
| Page.PageModel.UpdateChartOptions | static/js/script.js:171-187 | the pie shows label/value and hides x/y, the others the reverse; the two pairs always have opposite visibility |
| Page.PageModel.ChangeChartKind | static/js/script.js:171-187 | a new chart type is stored and the visibility follows it |
| Page.PageModel.PopulateColumnSelects | static/js/script.js:129-168 | all four selects list the columns; Y-axis and value show the first numeric column when there is one; the visibility follows the chart type |
| Page.PageModel.AcceptData | static/js/script.js:79-86 | rows and types are stored, the column list and the selects are rebuilt, the four groups' visibility follows the chart type, and nothing else changes |
| Page.PageModel.ReenableUpload | static/js/script.js:72-100 | the error branch and the catch block re-enable the upload button and change nothing else |
| Page.PageModel.AcceptMissingData | static/js/script.js:78-100 | a reply without data leaves the stored rows and types undefined, an empty column list and a re-enabled button; nothing else changes |
| Page.PageModel.FinishUpload | static/js/script.js:64-101 | an error reply or a failed request re-enables the button and keeps the data; an empty error text clears the data, the types and the column list, and re-enables the button; a data reply is accepted and the button is left as it was (disabled, unless a file was chosen again during the upload) |
| Page.PageModel.CreateChart | static/js/script.js:356-423 | the previous chart is destroyed and a new one with the given type and data becomes the only live instance |
| Page.PageModel.GenerateChart | static/js/script.js:190-218 | without rows nothing changes; otherwise the pie aggregates the label and value selections, bar and line the x and y selections, and the new chart is the only live one |

## Left out

- UploadServer.UploadFile: only exceptions raised by the reader are modelled. The `try` also covers `identify_column_types` and `jsonify`, so an exception there also becomes an error reply. Examples are mixed string and integer column labels, which Flask's key sorting rejects, and a non-`ValueError` from `to_datetime`, which `is_date_column` does not catch. In the model, column labels are strings and the numeric and date tests always return a value.
- Registry.TypeLabel: a code that names an inherited `Object.prototype` property, such as `constructor` or `toString`, finds a function in the label object rather than `undefined`. The model gives such a code no label. The server never sends such a code; only a reply from elsewhere could carry one.
- The DOM: status messages written with `innerHTML`, CSS classes other than the four hidden flags, scrolling and fade-in (static/js/script.js:62, 73, 89-96, 99). They do not affect the state the model tracks.
- The network: `fetch`, `FormData` and the JSON round trip are I/O. An upload is split into `BeginUpload` (request sent or not) and `FinishUpload` (the reply as a `Reply`, or `NoReply` when the request fails).
- Flask routing, the index template, and the markup's initial control state before the `load` event. That state is a constructor parameter; `Load` then sets the label and the button.
- Chart.js: options, animation defaults, tooltips, pie percentages, `toFixed(2)` and the "3D" plugin (static/js/script.js:243-275, 307-350, 362-422, 473-486). These are presentation inside a foreign library. The bar plugin calls `.map` on a string colour, which is a rendering bug in that presentation layer.
- `generateRandomColors`: it uses `Math.random`. The colours it produces are therefore left out of `ChartData`.
- pandas: `read_excel`/`read_csv`, `to_numeric`, the `to_datetime` format trials and the random sample in `is_date_column` (app.py:29-63). The numeric and date tests, the readers and the `data` records are parameters. `ReadersDeduplicate` states the readers' duplicate-header renaming as a requirement.
- Number formatting:
  - Reals are exact, so floating-point rounding, `Infinity` and `-0` are not modelled.
  - The text JavaScript prints for the `hsl` alpha `1 + factor` is a parameter `show`.
  - `parseInt` precision loss beyond 2^53 is not modelled.
- ColumnTypes.HasTextAndNumbersIff: Python's `\d` also matches non-ASCII decimal digits, and the model's digit test accepts ASCII digits only. The letter test `[a-zA-Z]` is ASCII in the source as well, so it is exact.
- `toLowerCase` on non-ASCII letters: only ASCII case folding is modelled.
- `MeanBy` is stated only through `PrepareAxis`'s contract (sum divided by group size).
